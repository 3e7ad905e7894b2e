/** Where idempotent resume stops: external ids of the two roles may cross when one uid is the
    other one behind the client prefix. */
module Crossing {
  import opened Wrappers
  import opened Domain
  import opened Machine
  import opened Handlers
  import opened Milestones
  import opened Convergence

  // All idents in the table were issued.
  ghost predicate Issued(t: Table) {
    forall key | key in t.links :: t.links[key].ident < |t.issued|
  }

  lemma SettleKeepsIssued(t: Table, oldKey: Option<string>, key: string, page: Page)
    requires Issued(t)
    ensures Issued(SettleIn(t, oldKey, key, page))
  {
  }

  lemma LongerIds(uid: Uid)
    ensures |CLIENT_PREFIX + uid| == |uid| + 7 && |CLIENT_PREFIX + (CLIENT_PREFIX + uid)| == |uid| + 14
  {
  }

  // From `client_u` to `u`, overwriting: the second time, the organizer's link takes the client's ident.
  lemma OverwrittenFromClient(t: Table, u: Uid, page: Page, page2: Page)
    requires t.overwrites && Issued(t)
    ensures var p := CLIENT_PREFIX + u;
            var once := SettleIn(SettleIn(t, Some(p), u, page), Some(CLIENT_PREFIX + p), p, page2);
            SettleIn(SettleIn(once, Some(p), u, page), Some(CLIENT_PREFIX + p), p, page2) != once
  {
    LongerIds(u);
    var p := CLIENT_PREFIX + u;
    var first := SettleIn(t, Some(p), u, page);
    var once := SettleIn(first, Some(CLIENT_PREFIX + p), p, page2);
    SettleKeepsIssued(t, Some(p), u, page);
    SettleKeepsIssued(first, Some(CLIENT_PREFIX + p), p, page2);
    var again := SettleIn(once, Some(p), u, page);
    assert p in once.links && CLIENT_PREFIX + p !in once.links && p !in again.links;
    assert SettleIn(again, Some(CLIENT_PREFIX + p), p, page2).links[p].ident == |once.issued|;
  }

  // From `p` to `client_p`: the client's link moves away from where the organizer's has just gone, so
  // that the next time the organizer's is made anew and takes the same way.
  lemma LeftBehind(t: Table, p: Uid, page: Page, page2: Page)
    requires Issued(t) && (t.overwrites || CLIENT_PREFIX + (CLIENT_PREFIX + p) !in t.links)
    ensures var u := CLIENT_PREFIX + p;
            var once := SettleIn(SettleIn(t, Some(p), u, page), Some(u), CLIENT_PREFIX + u, page2);
            SettleIn(SettleIn(once, Some(p), u, page), Some(u), CLIENT_PREFIX + u, page2) != once
  {
    LongerIds(p);
    var u := CLIENT_PREFIX + p;
    var first := SettleIn(t, Some(p), u, page);
    var once := SettleIn(first, Some(u), CLIENT_PREFIX + u, page2);
    SettleKeepsIssued(t, Some(p), u, page);
    SettleKeepsIssued(first, Some(u), CLIENT_PREFIX + u, page2);
    assert u in first.links && u !in once.links && CLIENT_PREFIX + u in once.links;
    var again := SettleIn(once, Some(p), u, page);
    assert u in again.links;
    if t.overwrites {
      assert p !in once.links && again.links[u].ident == |once.issued|;
    } else {
      assert u in SettleIn(again, Some(u), CLIENT_PREFIX + u, page2).links;
    }
  }

  // Crossed ids: resolving both links a second time changes the table.
  lemma CrossedTablesDiffer(t: Table, h: Handler, b: Booking)
    requires !NoCrossing(h, b) && !HarmlessCrossing(h, b, t) && Issued(t)
    ensures Both(Both(t, h, b), h, b) != Both(t, h, b)
  {
    var u, p := b.uid, PreviousUid(h.previousUid, b).value;
    var page, page2 := PageFor(b, b.user.value, Organizer), PageFor(b, b.client.value, Client);
    if p == CLIENT_PREFIX + u {
      LongerIds(u);
      OverwrittenFromClient(t, u, page, page2);
    } else {
      LeftBehind(t, p, page, page2);
    }
  }

  lemma RedeliverOnce(h: Handler, b: Booking, ceId: string, s: Store)
    ensures Redeliver(Plan(h, b, ceId), s, [[]]) == Uninterrupted(h, b, ceId, s)
  {
    var attempts: seq<seq<Fate>> := [[]];
    assert attempts[1..] == [];
  }

  lemma RepeatDiffers(h: Handler, b: Booking, ceId: string, s: Store)
    requires !Resumable(h, b, Observe(s)) && Issued(s.table)
    ensures var s1 := Uninterrupted(h, b, ceId, s);
            Observe(Uninterrupted(h, b, ceId, s1)) != Observe(s1)
  {
    var s1 := Uninterrupted(h, b, ceId, s);
    PrefixChanges(b.uid);
    UninterruptedReachesGoals(h, b, ceId, s);
    UninterruptedReachesGoals(h, b, ceId, s1);
    RescheduleResult(h, b, Observe(s));
    RescheduleResult(h, b, Observe(s1));
    CrossedTablesDiffer(s.table, h, b);
  }

  // After any crashed attempts, an uninterrupted one ends where it would have ended at once.
  ghost predicate ResumesExactly(h: Handler, b: Booking, ceId: string, s: Store) {
    forall attempts: seq<seq<Fate>> | (forall fates | fates in attempts :: CutsOnly(fates)) ::
      Observe(Uninterrupted(h, b, ceId, Redeliver(Plan(h, b, ceId), s, attempts)))
      == Observe(Uninterrupted(h, b, ceId, s))
  }

  // Main theorem. Every delivery of every handler, from every store, resumes exactly after all crashes if
  // and only if its two uids do not cross, or a refusing shortener makes that harmless, or the chat stops it.
  lemma ResumeIsExactIffResumable(h: Handler, b: Booking, ceId: string, s: Store)
    requires Issued(s.table)
    ensures ResumesExactly(h, b, ceId, s) <==> Resumable(h, b, Observe(s))
  {
    var plan := Plan(h, b, ceId);
    if Resumable(h, b, Observe(s)) {
      forall attempts: seq<seq<Fate>> | forall fates | fates in attempts :: CutsOnly(fates)
        ensures Observe(Uninterrupted(h, b, ceId, Redeliver(plan, s, attempts)))
          == Observe(Uninterrupted(h, b, ceId, s))
      {
        CrashReplayConverges(h, b, ceId, s, attempts);
      }
    } else {
      // One attempt whose acknowledgement is lost, then a redelivery.
      var attempts: seq<seq<Fate>> := [[]];
      assert forall fates | fates in attempts :: CutsOnly(fates);
      RepeatDiffers(h, b, ceId, s);
      RedeliverOnce(h, b, ceId, s);
      assert Observe(Uninterrupted(h, b, ceId, Redeliver(plan, s, attempts))) != Observe(Uninterrupted(h, b, ceId, s));
    }
  }
}
