/** What an outsider observes of the handlers, described independently of their steps: each handler
    is a list of milestones to reach, and going for them again from any milestone changes nothing. */
module Milestones {
  import opened Wrappers
  import opened Domain
  import opened Machine
  import opened Handlers

  datatype Status = LiveChat | DeletedChat

  // Short links, chat status, video URLs and rejections; not messages and not events.
  datatype Obs = Obs(table: Table, status: map<Uid, Status>, video: map<Uid, Url>, rejected: map<int, string>)

  function StatusOf(c: Channel): Status { if c.Live? then LiveChat else DeletedChat }

  function Observe(s: Store): Obs {
    Obs(s.table, map uid | uid in s.channels :: StatusOf(s.channels[uid]), s.video, s.rejected)
  }

  // ----- Milestones -----

  datatype Milestone =
    | Drop(uid: Uid, hard: bool)
    | Ensure(uid: Uid)
    | Settle(oldKey: Option<string>, key: string, page: Page)
    | Show(uid: Uid, key: string)
    | Unlink(key: string)
    | Reject(id: int, reason: string)

  // A soft-deleted channel id cannot be recreated.
  predicate Blocked(m: Milestone, o: Obs) {
    m.Ensure? && m.uid in o.status && o.status[m.uid] == DeletedChat
  }

  function SettleIn(t: Table, oldKey: Option<string>, key: string, page: Page): Table {
    if oldKey.Some? && Movable(t, oldKey.value, key) then Move(t, oldKey.value, key, page) else Upsert(t, key, page)
  }

  function Apply(m: Milestone, o: Obs): Obs {
    match m
    case Drop(uid, hard) =>
      if hard then o.(status := o.status - {uid})
      else if uid in o.status then o.(status := o.status[uid := DeletedChat])
      else o
    case Ensure(uid) => o.(status := o.status[uid := LiveChat])
    case Settle(oldKey, key, page) => o.(table := SettleIn(o.table, oldKey, key, page))
    case Show(uid, key) =>
      if key in o.table.links then o.(video := o.video[uid := Short(o.table.links[key].ident)]) else o
    case Unlink(key) => o.(table := o.table.(links := o.table.links - {key}))
    case Reject(id, reason) => o.(rejected := o.rejected[id := reason])
  }

  // The observation after the milestones, and whether one of them was blocked.
  function Reach(o: Obs, ms: seq<Milestone>): (Obs, bool)
    decreases ms
  {
    if ms == [] then (o, false)
    else if Blocked(ms[0], o) then (o, true)
    else Reach(Apply(ms[0], o), ms[1..])
  }

  lemma {:induction false} ReachSplit(o: Obs, ms: seq<Milestone>, ns: seq<Milestone>)
    ensures Reach(o, ms + ns) == if Reach(o, ms).1 then Reach(o, ms) else Reach(Reach(o, ms).0, ns)
    decreases ms
  {
    if ms == [] {
      assert ms + ns == ns;
    } else if !Blocked(ms[0], o) {
      assert (ms + ns)[1..] == ms[1..] + ns;
      ReachSplit(Apply(ms[0], o), ms[1..], ns);
    }
  }

  // ----- What each handler is to achieve -----

  function CleanupGoals(h: Handler, b: Booking): seq<Milestone> {
    match h
    case Rescheduled(previousUid) =>
      var previous := PreviousUid(previousUid, b);
      if previous.Some? && previous.value != b.uid then [Drop(previous.value, false)] else []
    case Reassigned => [Drop(b.uid, true)]
    case _ => []
  }

  function ChatGoals(b: Booking): seq<Milestone> {
    if b.user.None? || b.client.None? then [] else [Ensure(b.uid)]
  }

  function UrlGoals(h: Handler, b: Booking, role: Role): seq<Milestone> {
    match Participant(b, role)
    case None => []
    case Some(p) => [Settle(OldKey(h, b, role), KeyOf(role, b.uid), PageFor(b, p, role))]
  }

  function VideoGoals(b: Booking): seq<Milestone> {
    if b.client.None? then [] else [Show(b.uid, KeyOf(Client, b.uid))]
  }

  function SetupGoals(h: Handler, b: Booking): seq<Milestone> {
    ChatGoals(b) + ((UrlGoals(h, b, Organizer) + UrlGoals(h, b, Client)) + VideoGoals(b))
  }

  function Goals(h: Handler, b: Booking): seq<Milestone> {
    match h
    case Rejected(_, reason) => [Reject(b.id, reason)]
    case Cancelled => [Drop(b.uid, false), Unlink(KeyOf(Organizer, b.uid)), Unlink(KeyOf(Client, b.uid))]
    case _ => CleanupGoals(h, b) + SetupGoals(h, b)
  }

  // ----- Milestones absorb what was already reached -----

  // The milestone holds already: going for it changes nothing.
  predicate Holds(m: Milestone, o: Obs) { !Blocked(m, o) && Apply(m, o) == o }

  // m' does not undo m.
  predicate Compatible(m: Milestone, m': Milestone) {
    match m
    case Drop(uid, hard) => m'.Ensure? ==> m'.uid != uid
    case Ensure(uid) => m'.Drop? ==> m'.uid != uid
    case Settle(oldKey, key, _) =>
      match m' {
        case Settle(oldKey', key', _) =>
          && key != key' && Some(key) != oldKey'
          && (oldKey.Some? ==> oldKey.value != key' && oldKey != oldKey')
        case Unlink(key') => key != key'
        case _ => true
      }
    case Show(uid, key) => !m'.Settle? && !m'.Unlink? && !m'.Show?
    case Unlink(key) => !m'.Settle?
    case Reject(id, reason) => m'.Reject? ==> m' == m
  }

  ghost predicate AllCompatible(ms: seq<Milestone>) {
    forall i, j :: 0 <= i < j < |ms| ==> Compatible(ms[i], ms[j])
  }

  lemma HoldsOnceApplied(m: Milestone, o: Obs)
    requires !Blocked(m, o)
    ensures Holds(m, Apply(m, o))
  {
    if m.Settle? {
      var t := SettleIn(o.table, m.oldKey, m.key, m.page);
      assert SettleIn(t, m.oldKey, m.key, m.page).links == t.links;
    }
  }

  lemma LiveStays(uid: Uid, m': Milestone, o: Obs)
    requires Holds(Ensure(uid), o) && Compatible(Ensure(uid), m') && !Blocked(m', o)
    ensures Holds(Ensure(uid), Apply(m', o))
  {
    var o' := Apply(m', o);
    assert o.status[uid := LiveChat] == o.status;
    assert uid in o.status && uid in o'.status && o'.status[uid] == LiveChat;
    assert Apply(Ensure(uid), o').status == o'.status;
  }

  lemma SettledStays(oldKey: Option<string>, key: string, page: Page, m': Milestone, o: Obs)
    requires Holds(Settle(oldKey, key, page), o) && Compatible(Settle(oldKey, key, page), m') && !Blocked(m', o)
    ensures Holds(Settle(oldKey, key, page), Apply(m', o))
  {
    var o' := Apply(m', o);
    SettledEntry(o.table, oldKey, key, page);
    assert SettleIn(o'.table, oldKey, key, page).links == o'.table.links;
  }

  lemma StillHolds(m: Milestone, m': Milestone, o: Obs)
    requires Holds(m, o) && Compatible(m, m') && !Blocked(m', o)
    ensures Holds(m, Apply(m', o))
  {
    var o' := Apply(m', o);
    match m
    case Drop(uid, hard) => assert Apply(m, o').status == o'.status;
    case Ensure(uid) => LiveStays(uid, m', o);
    case Settle(oldKey, key, page) => SettledStays(oldKey, key, page, m', o);
    case Show(uid, key) =>
    case Unlink(key) =>
      assert o.table.links - {key} == o.table.links;
      assert key !in o'.table.links;
      assert Apply(m, o').table.links == o'.table.links;
    case Reject(id, reason) =>
  }

  // What a settled link looks like in the table.
  lemma SettledEntry(t: Table, oldKey: Option<string>, key: string, page: Page)
    requires SettleIn(t, oldKey, key, page) == t
    ensures key in t.links && t.links[key].target == page
    ensures oldKey.Some? && oldKey.value != key ==> !Movable(t, oldKey.value, key)
  {
  }

  // After an unblocked run through compatible milestones, each of them holds.
  lemma {:induction false} AllHold(o: Obs, ms: seq<Milestone>, i: nat)
    requires i < |ms| && AllCompatible(ms) && !Reach(o, ms).1
    ensures Holds(ms[i], Reach(o, ms).0)
    decreases ms
  {
    if i == 0 {
      HoldsOnceApplied(ms[0], o);
      KeepsHolding(ms[0], Apply(ms[0], o), ms[1..]);
    } else {
      AllHold(Apply(ms[0], o), ms[1..], i - 1);
    }
  }

  lemma {:induction false} KeepsHolding(m: Milestone, o: Obs, ms: seq<Milestone>)
    requires Holds(m, o) && forall m' | m' in ms :: Compatible(m, m')
    ensures Holds(m, Reach(o, ms).0)
    decreases ms
  {
    if ms != [] && !Blocked(ms[0], o) {
      StillHolds(m, ms[0], o);
      KeepsHolding(m, Apply(ms[0], o), ms[1..]);
    }
  }

  lemma {:induction false} HeldAreSkipped(o: Obs, ms: seq<Milestone>, ns: seq<Milestone>)
    requires forall i :: 0 <= i < |ms| ==> Holds(ms[i], o)
    ensures Reach(o, ms + ns) == Reach(o, ns)
    decreases ms
  {
    if ms == [] {
      assert ms + ns == ns;
    } else {
      assert Holds(ms[0], o);
      assert (ms + ns)[1..] == ms[1..] + ns;
      HeldAreSkipped(o, ms[1..], ns);
    }
  }

  // The milestone holds, and goes on holding along these ones.
  ghost predicate Stays(m: Milestone, o: Obs, ms: seq<Milestone>)
    decreases ms
  {
    Holds(m, o) && (ms != [] && !Blocked(ms[0], o) ==> Stays(m, Apply(ms[0], o), ms[1..]))
  }

  // From this observation on, each milestone goes on holding once it is reached.
  ghost predicate Lasting(o: Obs, ms: seq<Milestone>)
    decreases ms
  {
    ms != [] && !Blocked(ms[0], o) ==>
      Stays(ms[0], Apply(ms[0], o), ms[1..]) && Lasting(Apply(ms[0], o), ms[1..])
  }

  lemma {:induction false} CompatibleStay(m: Milestone, o: Obs, ms: seq<Milestone>)
    requires Holds(m, o) && forall m' | m' in ms :: Compatible(m, m')
    ensures Stays(m, o, ms)
    decreases ms
  {
    if ms != [] && !Blocked(ms[0], o) {
      StillHolds(m, ms[0], o);
      CompatibleStay(m, Apply(ms[0], o), ms[1..]);
    }
  }

  lemma {:induction false} CompatibleLast(o: Obs, ms: seq<Milestone>)
    requires AllCompatible(ms)
    ensures Lasting(o, ms)
    decreases ms
  {
    if ms != [] && !Blocked(ms[0], o) {
      HoldsOnceApplied(ms[0], o);
      CompatibleStay(ms[0], Apply(ms[0], o), ms[1..]);
      CompatibleLast(Apply(ms[0], o), ms[1..]);
    }
  }

  lemma {:induction false} StaysAlong(m: Milestone, o: Obs, ms: seq<Milestone>, j: nat)
    requires j <= |ms| && Stays(m, o, ms)
    ensures Holds(m, Reach(o, ms[..j]).0)
    decreases j
  {
    if j > 0 && !Blocked(ms[0], o) {
      assert ms[..j][1..] == ms[1..][..j - 1];
      StaysAlong(m, Apply(ms[0], o), ms[1..], j - 1);
    }
  }

  lemma {:induction false} LastingHold(o: Obs, ms: seq<Milestone>, j: nat, i: nat)
    requires i < j <= |ms| && Lasting(o, ms) && !Reach(o, ms[..j]).1
    ensures Holds(ms[i], Reach(o, ms[..j]).0)
    decreases ms
  {
    assert ms[..j][1..] == ms[1..][..j - 1];
    if i == 0 {
      StaysAlong(ms[0], Apply(ms[0], o), ms[1..], j - 1);
    } else {
      LastingHold(Apply(ms[0], o), ms[1..], j - 1, i - 1);
    }
  }

  // Stopping after j milestones and starting over ends where going straight through ends.
  lemma Absorbs(o: Obs, ms: seq<Milestone>, j: nat)
    requires j <= |ms| && Lasting(o, ms)
    ensures Reach(Reach(o, ms[..j]).0, ms) == Reach(o, ms)
  {
    var done, x := ms[..j], Reach(o, ms[..j]).0;
    assert ms == done + ms[j..];
    ReachSplit(o, done, ms[j..]);
    if Reach(o, done).1 {
      var e := BlockedAt(o, done);
      assert done[..e] == ms[..e] && ms == ms[..e] + ms[e..];
      forall i | 0 <= i < e ensures Holds(ms[..e][i], x) {
        LastingHold(o, ms, e, i);
      }
      HeldAreSkipped(x, ms[..e], ms[e..]);
    } else {
      forall i | 0 <= i < j ensures Holds(done[i], x) {
        LastingHold(o, ms, j, i);
      }
      HeldAreSkipped(x, done, ms[j..]);
    }
  }

  // Where a blocked run stops.
  lemma {:induction false} BlockedAt(o: Obs, ms: seq<Milestone>) returns (e: nat)
    requires Reach(o, ms).1
    ensures e < |ms| && !Reach(o, ms[..e]).1 && Reach(o, ms[..e]).0 == Reach(o, ms).0
    ensures Blocked(ms[e], Reach(o, ms).0)
    decreases ms
  {
    if Blocked(ms[0], o) {
      e := 0;
    } else {
      e := BlockedAt(Apply(ms[0], o), ms[1..]);
      e := e + 1;
      assert ms[..e][1..] == ms[1..][..e - 1];
    }
  }

  // ----- The handlers' goals -----

  // No external id of one role and uid is that of the other role and uid.
  predicate Uncrossed(uid: Uid, previous: Uid) {
    previous != CLIENT_PREFIX + uid && uid != CLIENT_PREFIX + previous
  }

  // With one participant there is nothing to cross.
  predicate NoCrossing(h: Handler, b: Booking) {
    h.Rescheduled? && PreviousUid(h.previousUid, b).Some? && b.user.Some? && b.client.Some? ==>
      Uncrossed(b.uid, PreviousUid(h.previousUid, b).value)
  }

  // Crossing uids do no harm where the shortener refuses to move a link onto another one, unless the
  // client's link leaves the very id the organizer's link goes to.
  predicate HarmlessCrossing(h: Handler, b: Booking, t: Table) {
    h.Rescheduled? && PreviousUid(h.previousUid, b).Some? && !t.overwrites
    && (b.uid == CLIENT_PREFIX + PreviousUid(h.previousUid, b).value ==> CLIENT_PREFIX + b.uid in t.links)
  }

  // Deliveries can be resumed: nothing crosses, or harmlessly so, or the chat stops them before the links.
  predicate Resumable(h: Handler, b: Booking, o: Obs) {
    NoCrossing(h, b) || HarmlessCrossing(h, b, o.table) || Blocked(Ensure(b.uid), o)
  }

  lemma PrefixChanges(uid: Uid)
    ensures CLIENT_PREFIX + uid != uid
  {
    assert |CLIENT_PREFIX + uid| == 7 + |uid|;
  }

  lemma PrefixCancels(uid: Uid, other: Uid)
    requires CLIENT_PREFIX + uid == CLIENT_PREFIX + other
    ensures uid == other
  {
    assert (CLIENT_PREFIX + uid)[7..] == uid;
    assert (CLIENT_PREFIX + other)[7..] == other;
  }

  lemma SettlesAreCompatible(h: Handler, b: Booking)
    requires NoCrossing(h, b) && b.user.Some? && b.client.Some?
    ensures Compatible(UrlGoals(h, b, Organizer)[0], UrlGoals(h, b, Client)[0])
  {
    PrefixChanges(b.uid);
    if OldKey(h, b, Client).Some? {
      var previous := if h.Rescheduled? then PreviousUid(h.previousUid, b).value else b.uid;
      PrefixChanges(previous);
    }
  }

  lemma SetupGoalsAreCompatible(h: Handler, b: Booking)
    requires NoCrossing(h, b)
    ensures AllCompatible(SetupGoals(h, b))
  {
    if b.user.Some? && b.client.Some? {
      SettlesAreCompatible(h, b);
    }
  }

  lemma GoalsAreCompatible(h: Handler, b: Booking)
    requires NoCrossing(h, b) && !h.Reassigned?
    ensures AllCompatible(Goals(h, b))
  {
    if h.Created? || h.Rescheduled? {
      SetupGoalsAreCompatible(h, b);
    }
  }

  // A reassignment drops the chat first; dropping it again and going on ends in the same place.
  lemma DropThenSetup(b: Booking, d: Obs, j: nat)
    requires b.uid !in d.status
    requires j <= |SetupGoals(Reassigned, b)|
    ensures var rest := SetupGoals(Reassigned, b);
            Reach(Apply(Drop(b.uid, true), Reach(d, rest[..j]).0), rest) == Reach(d, rest)
  {
    var rest := SetupGoals(Reassigned, b);
    var x := Reach(d, rest[..j]).0;
    var y := Apply(Drop(b.uid, true), x);
    SetupGoalsAreCompatible(Reassigned, b);
    CompatibleLast(d, rest);
    Absorbs(d, rest, j);
    if ChatGoals(b) == [] {
      NoChatTouched(b, d, rest[..j]);
      assert y.status == x.status;
    } else if j == 0 {
      assert rest[..0] == [];
      assert y.status == x.status;
    } else {
      ChatEnsured(b, d, rest, j);
      RecreatedChat(b.uid, x);
    }
  }

  lemma ChatEnsured(b: Booking, d: Obs, rest: seq<Milestone>, j: nat)
    requires rest == SetupGoals(Reassigned, b) && ChatGoals(b) != [] && b.uid !in d.status && 0 < j <= |rest|
    ensures Holds(Ensure(b.uid), Reach(d, rest[..j]).0)
  {
    var ensure := Ensure(b.uid);
    assert rest[..j][0] == ensure && !Blocked(ensure, d);
    SetupGoalsAreCompatible(Reassigned, b);
    NeverBlocked(Apply(ensure, d), rest[..j][1..]);
    AllHold(d, rest[..j], 0);
  }

  // Ensuring a live chat again after its hard deletion undoes the deletion.
  lemma RecreatedChat(uid: Uid, x: Obs)
    requires Holds(Ensure(uid), x)
    ensures var y := Apply(Drop(uid, true), x); Apply(Ensure(uid), y) == x && !Blocked(Ensure(uid), y)
  {
    var y := Apply(Drop(uid, true), x);
    assert x.status[uid := LiveChat] == x.status;
    assert Apply(Ensure(uid), y).status == x.status;
  }

  lemma {:induction false} NoChatTouched(b: Booking, o: Obs, ms: seq<Milestone>)
    requires forall m | m in ms :: !m.Drop? && !m.Ensure?
    ensures Reach(o, ms).0.status == o.status
    decreases ms
  {
    if ms != [] {
      NoChatTouched(b, Apply(ms[0], o), ms[1..]);
    }
  }

  lemma {:induction false} NeverBlocked(o: Obs, ms: seq<Milestone>)
    requires forall m | m in ms :: !m.Ensure?
    ensures !Reach(o, ms).1
    decreases ms
  {
    if ms != [] {
      NeverBlocked(Apply(ms[0], o), ms[1..]);
    }
  }

  // Over a refusing shortener the client's link settles without undoing the organizer's.
  lemma OrganizerSettledStays(t: Table, oldKey: string, key: string, page: Page,
                              oldKey2: string, key2: string, page2: Page)
    requires !t.overwrites && key != oldKey && key != key2 && key in t.links && t.links[key].target == page
    requires oldKey2 == key ==> key2 in t.links && key2 != oldKey2
    ensures var t' := SettleIn(t, Some(oldKey2), key2, page2); SettleIn(t', Some(oldKey), key, page) == t'
  {
    var t' := SettleIn(t, Some(oldKey2), key2, page2);
    assert key in t'.links && t'.links[key] == t.links[key];
    assert t'.links[key := t'.links[key]] == t'.links;
  }

  // The two links of a harmless crossing.
  lemma HarmlessSettles(h: Handler, b: Booking, o: Obs)
    requires HarmlessCrossing(h, b, o.table) && !NoCrossing(h, b)
    ensures var first, second := UrlGoals(h, b, Organizer)[0], UrlGoals(h, b, Client)[0];
            Holds(first, Apply(second, Apply(first, o)))
  {
    var u, p := b.uid, PreviousUid(h.previousUid, b).value;
    var cu, cp := CLIENT_PREFIX + u, CLIENT_PREFIX + p;
    assert |cu| == |u| + 7 && |cp| == |p| + 7;
    var page, page2 := PageFor(b, b.user.value, Organizer), PageFor(b, b.client.value, Client);
    var t := SettleIn(o.table, Some(p), u, page);
    assert u in t.links && t.links[u].target == page;
    assert u == cp ==> cu in t.links;
    OrganizerSettledStays(t, p, u, page, cp, cu, page2);
  }

  lemma LastingCons(o: Obs, m: Milestone, ms: seq<Milestone>)
    requires !Blocked(m, o) ==> Stays(m, Apply(m, o), ms) && Lasting(Apply(m, o), ms)
    ensures Lasting(o, [m] + ms)
  {
    assert ([m] + ms)[1..] == ms;
  }

  lemma StaysCons(m: Milestone, o: Obs, m': Milestone, ms: seq<Milestone>)
    requires Holds(m, o) && (!Blocked(m', o) ==> Stays(m, Apply(m', o), ms))
    ensures Stays(m, o, [m'] + ms)
  {
    assert ([m'] + ms)[1..] == ms;
  }

  lemma HarmlessLinksLast(h: Handler, b: Booking, o: Obs)
    requires HarmlessCrossing(h, b, o.table) && !NoCrossing(h, b)
    ensures Lasting(o, [UrlGoals(h, b, Organizer)[0]] + ([UrlGoals(h, b, Client)[0]] + VideoGoals(b)))
  {
    var first, second, show := UrlGoals(h, b, Organizer)[0], UrlGoals(h, b, Client)[0], VideoGoals(b)[0];
    var o1 := Apply(first, o);
    var o2 := Apply(second, o1);
    assert VideoGoals(b) == [show];
    CompatibleLast(o1, [second] + VideoGoals(b));
    HarmlessSettles(h, b, o);
    HoldsOnceApplied(first, o);
    CompatibleStay(first, o2, VideoGoals(b));
    StaysCons(first, o1, second, VideoGoals(b));
    LastingCons(o, first, [second] + VideoGoals(b));
  }

  // A crossing reschedule has all five goals.
  lemma CrossingGoals(h: Handler, b: Booking)
    requires !NoCrossing(h, b)
    ensures var drop := Drop(PreviousUid(h.previousUid, b).value, false);
            Goals(h, b)
            == [drop] + ([Ensure(b.uid)]
                         + ([UrlGoals(h, b, Organizer)[0]] + ([UrlGoals(h, b, Client)[0]] + VideoGoals(b))))
  {
    PrefixChanges(b.uid);
  }

  function CrossingLinks(h: Handler, b: Booking): seq<Milestone>
    requires !NoCrossing(h, b)
  {
    [UrlGoals(h, b, Organizer)[0]] + ([UrlGoals(h, b, Client)[0]] + VideoGoals(b))
  }

  lemma EnsureAndLinksLast(h: Handler, b: Booking, o: Obs)
    requires Resumable(h, b, o) && !NoCrossing(h, b)
    ensures Lasting(o, [Ensure(b.uid)] + CrossingLinks(h, b))
  {
    var ensure := Ensure(b.uid);
    if !Blocked(ensure, o) {
      HoldsOnceApplied(ensure, o);
      CompatibleStay(ensure, Apply(ensure, o), CrossingLinks(h, b));
      HarmlessLinksLast(h, b, Apply(ensure, o));
    }
    LastingCons(o, ensure, CrossingLinks(h, b));
  }

  // Why a crossing, but resumable reschedule undoes nothing it has reached.
  lemma CrossingGoalsLast(h: Handler, b: Booking, o: Obs)
    requires Resumable(h, b, o) && !NoCrossing(h, b)
    ensures Lasting(o, Goals(h, b))
  {
    var drop, rest := Drop(PreviousUid(h.previousUid, b).value, false), [Ensure(b.uid)] + CrossingLinks(h, b);
    PrefixChanges(b.uid);
    CrossingGoals(h, b);
    HoldsOnceApplied(drop, o);
    CompatibleStay(drop, Apply(drop, o), rest);
    ResumableAfter(h, b, o, drop);
    EnsureAndLinksLast(h, b, Apply(drop, o));
    LastingCons(o, drop, rest);
  }

  // What made a delivery resumable still does after any of its milestones.
  lemma {:induction false} ResumableStays(h: Handler, b: Booking, o: Obs, ms: seq<Milestone>)
    requires Resumable(h, b, o) && forall m | m in ms :: m in Goals(h, b)
    ensures Resumable(h, b, Reach(o, ms).0)
    decreases ms
  {
    if ms != [] && !Blocked(ms[0], o) {
      assert ms[0] in ms && forall m | m in ms[1..] :: m in ms;
      if !NoCrossing(h, b) {
        GoalsOfCrossing(h, b);
        ResumableAfter(h, b, o, ms[0]);
      }
      ResumableStays(h, b, Apply(ms[0], o), ms[1..]);
    }
  }

  // What the goals of a crossing reschedule do to the observation.
  predicate CrossingGoal(h: Handler, b: Booking, m: Milestone)
    requires !NoCrossing(h, b)
  {
    var p := PreviousUid(h.previousUid, b).value;
    match m
    case Drop(uid, hard) => uid != b.uid
    case Ensure(uid) => uid == b.uid
    case Settle(oldKey, key, _) => oldKey == Some(p) || oldKey == Some(CLIENT_PREFIX + p)
    case Show(_, _) => true
    case _ => false
  }

  lemma GoalsOfCrossing(h: Handler, b: Booking)
    requires !NoCrossing(h, b)
    ensures forall m | m in Goals(h, b) :: CrossingGoal(h, b, m)
  {
    CrossingGoals(h, b);
    PrefixChanges(b.uid);
  }

  lemma SettleKeepsOthers(t: Table, oldKey: string, key: string, page: Page, other: string)
    requires other in t.links && other != oldKey
    ensures var t' := SettleIn(t, Some(oldKey), key, page); other in t'.links && t'.overwrites == t.overwrites
  {
  }

  lemma HarmlessAfterSettle(h: Handler, b: Booking, t: Table, oldKey: string, key: string, page: Page)
    requires HarmlessCrossing(h, b, t)
    requires var p := PreviousUid(h.previousUid, b).value; oldKey == p || oldKey == CLIENT_PREFIX + p
    ensures HarmlessCrossing(h, b, SettleIn(t, Some(oldKey), key, page))
  {
    var p := PreviousUid(h.previousUid, b).value;
    if b.uid == CLIENT_PREFIX + p {
      assert |CLIENT_PREFIX + b.uid| == |p| + 14 && |CLIENT_PREFIX + p| == |p| + 7;
      SettleKeepsOthers(t, oldKey, key, page, CLIENT_PREFIX + b.uid);
    }
  }

  lemma ResumableAfter(h: Handler, b: Booking, o: Obs, m: Milestone)
    requires Resumable(h, b, o) && !NoCrossing(h, b) && CrossingGoal(h, b, m) && !Blocked(m, o)
    ensures Resumable(h, b, Apply(m, o))
  {
    if m.Settle? && HarmlessCrossing(h, b, o.table) {
      HarmlessAfterSettle(h, b, o.table, m.oldKey.value, m.key, m.page);
    }
  }

  // Main algebraic fact: from any milestone of a handler, its goals lead to the same end.
  lemma GoalsAbsorb(h: Handler, b: Booking, o: Obs, j: nat)
    requires Resumable(h, b, o) && j <= |Goals(h, b)|
    ensures Reach(Reach(o, Goals(h, b)[..j]).0, Goals(h, b)) == Reach(o, Goals(h, b))
  {
    var ms := Goals(h, b);
    if !NoCrossing(h, b) {
      CrossingGoalsLast(h, b, o);
      Absorbs(o, ms, j);
    } else if !h.Reassigned? {
      GoalsAreCompatible(h, b);
      CompatibleLast(o, ms);
      Absorbs(o, ms, j);
    } else if j == 0 {
      assert ms[..0] == [];
    } else {
      var rest, d := SetupGoals(h, b), Apply(ms[0], o);
      assert ms[1..] == rest && ms[..j][1..] == rest[..j - 1];
      DropThenSetup(b, d, j - 1);
    }
  }

  // ----- Where the goals lead when both participants are present -----

  // The table after both participants' links are resolved.
  function Both(t: Table, h: Handler, b: Booking): Table
    requires b.user.Some? && b.client.Some?
  {
    SettleIn(SettleIn(t, OldKey(h, b, Organizer), KeyOf(Organizer, b.uid), PageFor(b, b.user.value, Organizer)),
             OldKey(h, b, Client), KeyOf(Client, b.uid), PageFor(b, b.client.value, Client))
  }

  lemma ReachCons(o: Obs, m: Milestone, ms: seq<Milestone>)
    ensures Reach(o, [m] + ms) == if Blocked(m, o) then (o, true) else Reach(Apply(m, o), ms)
  {
    assert ([m] + ms)[1..] == ms;
  }

  lemma SetupResult(h: Handler, b: Booking, o: Obs)
    requires b.user.Some? && b.client.Some?
    requires b.uid in o.status ==> o.status[b.uid] == LiveChat
    ensures var t := Both(o.table, h, b);
            && KeyOf(Client, b.uid) in t.links
            && Reach(o, SetupGoals(h, b))
               == (Obs(t, o.status[b.uid := LiveChat], o.video[b.uid := Short(t.links[KeyOf(Client, b.uid)].ident)],
                       o.rejected), false)
  {
    var ensure, show := Ensure(b.uid), Show(b.uid, KeyOf(Client, b.uid));
    var first, second := UrlGoals(h, b, Organizer)[0], UrlGoals(h, b, Client)[0];
    assert SetupGoals(h, b) == [ensure] + ([first] + ([second] + ([show] + [])));
    ReachCons(o, ensure, [first] + ([second] + ([show] + [])));
    var o1 := Apply(ensure, o);
    ReachCons(o1, first, [second] + ([show] + []));
    var o2 := Apply(first, o1);
    ReachCons(o2, second, [show] + []);
    var o3 := Apply(second, o2);
    ReachCons(o3, show, []);
  }

  lemma RescheduleResult(h: Handler, b: Booking, o: Obs)
    requires h.Rescheduled? && b.user.Some? && b.client.Some?
    requires PreviousUid(h.previousUid, b).Some? && PreviousUid(h.previousUid, b).value != b.uid
    requires b.uid in o.status ==> o.status[b.uid] == LiveChat
    ensures var t := Both(o.table, h, b);
            && KeyOf(Client, b.uid) in t.links
            && Reach(o, Goals(h, b))
               == (Obs(t, Apply(Drop(PreviousUid(h.previousUid, b).value, false), o).status[b.uid := LiveChat],
                       o.video[b.uid := Short(t.links[KeyOf(Client, b.uid)].ident)], o.rejected), false)
  {
    var drop := Drop(PreviousUid(h.previousUid, b).value, false);
    ReachCons(o, drop, SetupGoals(h, b));
    SetupResult(h, b, Apply(drop, o));
  }
}
