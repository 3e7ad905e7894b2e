/** The steps of a handler follow its milestones: wherever a plan is cut, the store is at one of them. */
module Tracking {
  import opened Wrappers
  import opened Domain
  import Dedupe
  import opened Machine
  import opened Handlers
  import opened Milestones

  // Wherever the plan is cut, the observation is at one of the milestones; uncut, at the last.
  ghost predicate Tracks(plan: seq<Instr>, ms: seq<Milestone>, r: Run) {
    var o := Observe(r.store);
    && Observe(Smooth(plan, r).store) == Reach(o, ms).0
    && (Smooth(plan, r).alive <==> !Reach(o, ms).1)
    && forall k :: 0 <= k <= |plan| ==> AtMilestone(plan, ms, r, k)
  }

  ghost predicate AtMilestone(plan: seq<Instr>, ms: seq<Milestone>, r: Run, k: nat)
    requires k <= |plan|
  {
    exists j :: 0 <= j <= |ms| && Observe(Smooth(plan[..k], r).store) == Reach(Observe(r.store), ms[..j]).0
  }

  lemma TracksConcat(p: seq<Instr>, q: seq<Instr>, ms: seq<Milestone>, ns: seq<Milestone>, r: Run)
    requires Tracks(p, ms, r)
    requires Smooth(p, r).alive ==> Tracks(q, ns, Smooth(p, r))
    ensures Tracks(p + q, ms + ns, r)
  {
    var o, mid := Observe(r.store), Smooth(p, r);
    SmoothSplit(p, q, r);
    ReachSplit(o, ms, ns);
    forall k | 0 <= k <= |p + q|
      ensures AtMilestone(p + q, ms + ns, r, k)
    {
      if k <= |p| {
        assert AtMilestone(p, ms, r, k);
        var j :| 0 <= j <= |ms| && Observe(Smooth(p[..k], r).store) == Reach(o, ms[..j]).0;
        assert (p + q)[..k] == p[..k] && (ms + ns)[..j] == ms[..j];
      } else {
        assert (p + q)[..k] == p + q[..k - |p|];
        SmoothSplit(p, q[..k - |p|], r);
        if mid.alive {
          assert AtMilestone(q, ns, mid, k - |p|);
          var j :| 0 <= j <= |ns| && Observe(Smooth(q[..k - |p|], mid).store) == Reach(Observe(mid.store), ns[..j]).0;
          assert (ms + ns)[..|ms| + j] == ms + ns[..j];
          ReachSplit(o, ms, ns[..j]);
        } else {
          assert (ms + ns)[..|ms|] == ms;
        }
      }
    }
  }

  lemma TracksNothing(r: Run)
    requires r.alive
    ensures Tracks([], [], r)
  {
    forall k | 0 <= k <= 0 ensures AtMilestone([], [], r, k) {
      assert Observe(Smooth([][..k], r).store) == Reach(Observe(r.store), [][..0]).0;
    }
  }

  // One step that reaches at most one milestone.
  lemma TracksOne(i: Instr, ms: seq<Milestone>, r: Run)
    requires r.alive && |ms| <= 1
    requires var o := Observe(r.store);
             var r' := Smooth([i], r);
             Observe(r'.store) == Reach(o, ms).0 && (r'.alive <==> !Reach(o, ms).1)
    ensures Tracks([i], ms, r)
  {
    forall k | 0 <= k <= 1 ensures AtMilestone([i], ms, r, k) {
      var o := Observe(r.store);
      if k == 0 {
        assert [i][..0] == [] && ms[..0] == [];
        assert Observe(Smooth([i][..k], r).store) == Reach(o, ms[..0]).0;
      } else {
        assert [i][..1] == [i] && ms[..|ms|] == ms;
        assert Observe(Smooth([i][..k], r).store) == Reach(o, ms[..|ms|]).0;
      }
    }
  }

  lemma SmoothOne(i: Instr, r: Run)
    requires r.alive
    ensures Smooth([i], r) == if Skips(i, r.regs) then r else Fated(i, r, Go(Fine))
  {
    assert [i][1..] == [];
    var next := if Skips(i, r.regs) then r else Fated(i, r, Go(Fine));
    assert Attempt([i], r, []) == Attempt([], next, []);
  }

  lemma TracksPublish(i: Instr, r: Run)
    requires i.Publish? && r.alive
    ensures Tracks([i], [], r)
    ensures var r' := Smooth([i], r);
            r'.alive && r'.regs == r.regs
            && r'.store == r.store.(accepted := r.store.accepted + [EventOf(i.ceId, i.step, i.draft, r.regs)])
  {
    SmoothOne(i, r);
    TracksOne(i, [], r);
  }

  lemma TracksDeleteChat(channel: Uid, uid: Uid, hard: bool, ceId: string, r: Run)
    requires r.alive
    ensures Tracks(DeleteChatPlan(channel, uid, hard, ceId), [Drop(channel, hard)], r)
    ensures var r' := Smooth(DeleteChatPlan(channel, uid, hard, ceId), r);
            r'.alive && r'.regs == r.regs
  {
    var plan := DeleteChatPlan(channel, uid, hard, ceId);
    assert plan == [plan[0]] + [plan[1]];
    SmoothOne(plan[0], r);
    var mid := Smooth([plan[0]], r);
    assert Observe(mid.store) == Apply(Drop(channel, hard), Observe(r.store));
    TracksOne(plan[0], [Drop(channel, hard)], r);
    TracksPublish(plan[1], mid);
    TracksConcat([plan[0]], [plan[1]], [Drop(channel, hard)], [], r);
    assert [Drop(channel, hard)] + [] == [Drop(channel, hard)];
    SmoothSplit([plan[0]], [plan[1]], r);
  }

  // Steps that only read or write messages of a live channel.
  lemma TracksTalk(i: Instr, r: Run)
    requires r.alive && (i.QueryMessages? || i.SendWelcome?) && IsLive(r.store, i.uid)
    ensures Tracks([i], [], r)
    ensures var r' := Smooth([i], r);
            r'.alive && IsLive(r'.store, i.uid) && r'.regs.(hasMessages := r.regs.hasMessages) == r.regs
  {
    SmoothOne(i, r);
    assert Observe(Smooth([i], r).store).status == Observe(r.store).status;
    TracksOne(i, [], r);
  }

  lemma NoneAndNone()
    ensures var none: seq<Milestone> := []; none + none == none
  {
  }

  // Three steps of talk after the chat is announced.
  lemma TracksGreeting(announce: Instr, query: Instr, first: Instr, second: Instr, r: Run)
    requires r.alive && announce.Publish? && query.QueryMessages? && first.SendWelcome? && second.SendWelcome?
    requires IsLive(r.store, query.uid) && first.uid == query.uid && second.uid == query.uid
    ensures var plan := [announce, query, first, second];
            Tracks(plan, [], r)
            && (var regs := Smooth(plan, r).regs;
                Smooth(plan, r).alive ==> regs.organizer == r.regs.organizer && regs.client == r.regs.client)
  {
    NoneAndNone();
    TracksPublish(announce, r);
    var r2 := Smooth([announce], r);
    TracksTalk(query, r2);
    var r3 := Smooth([query], r2);
    TracksTalk(first, r3);
    var r4 := Smooth([first], r3);
    TracksTalk(second, r4);
    TracksConcat([first], [second], [], [], r3);
    SmoothSplit([first], [second], r3);
    TracksConcat([query], [first] + [second], [], [], r2);
    SmoothSplit([query], [first] + [second], r2);
    TracksConcat([announce], [query] + ([first] + [second]), [], [], r);
    SmoothSplit([announce], [query] + ([first] + [second]), r);
    assert [announce] + ([query] + ([first] + [second])) == [announce, query, first, second];
  }

  lemma TracksChat(b: Booking, ceId: string, r: Run)
    requires r.alive
    ensures Tracks(ChatPlan(b, ceId), ChatGoals(b), r)
    ensures var r' := Smooth(ChatPlan(b, ceId), r);
            r'.alive ==> r'.regs.organizer == r.regs.organizer && r'.regs.client == r.regs.client
  {
    var plan := ChatPlan(b, ceId);
    if plan == [] {
      TracksNothing(r);
    } else {
      var ms, talk := [Ensure(b.uid)], [plan[1], plan[2], plan[3], plan[4]];
      SmoothOne(plan[0], r);
      var r1 := Smooth([plan[0]], r);
      assert r1.alive ==> Observe(r1.store).status == Observe(r.store).status[b.uid := LiveChat];
      TracksOne(plan[0], ms, r);
      if r1.alive {
        TracksGreeting(plan[1], plan[2], plan[3], plan[4], r1);
      }
      TracksConcat([plan[0]], talk, ms, [], r);
      SmoothSplit([plan[0]], talk, r);
      assert plan == [plan[0]] + talk && ms + [] == ms;
    }
  }

  // After a participant's URL is resolved, the register holds the ident of its entry.
  predicate Settled(r: Run, key: string, role: Role) {
    key in r.store.table.links && r.regs.Ident(role) == Some(r.store.table.links[key].ident)
  }

  lemma TracksResolve(oldKey: Option<string>, key: string, page: Page, r: Run)
    requires r.alive && r.regs.Ident(page.role) == None
    ensures Tracks(ResolvePlan(oldKey, key, page), [Settle(oldKey, key, page)], r)
    ensures var r' := Smooth(ResolvePlan(oldKey, key, page), r);
            r'.alive && Settled(r', key, page.role) && r'.store.table == SettleIn(r.store.table, oldKey, key, page)
            && r'.regs == r.regs.Set(page.role, r'.regs.Ident(page.role))
  {
    var create := CreateLink(key, page);
    var goal := Settle(oldKey, key, page);
    if oldKey.None? {
      SmoothOne(create, r);
      TracksOne(create, [goal], r);
    } else {
      var move := MoveLink(oldKey.value, key, page);
      assert ResolvePlan(oldKey, key, page) == [move] + [create];
      SmoothOne(move, r);
      var mid := Smooth([move], r);
      SmoothOne(create, mid);
      SmoothSplit([move], [create], r);
      if Movable(r.store.table, oldKey.value, key) {
        TracksOne(move, [goal], r);
        TracksOne(create, [], mid);
        TracksConcat([move], [create], [goal], [], r);
        assert [goal] + [] == [goal];
      } else {
        TracksOne(move, [], r);
        TracksOne(create, [goal], mid);
        TracksConcat([move], [create], [], [goal], r);
        assert [] + [goal] == [goal];
      }
    }
  }

  lemma TracksUrl(h: Handler, b: Booking, role: Role, ceId: string, r: Run)
    requires r.alive && r.regs.Ident(role) == None
    ensures Tracks(UrlPlan(h, b, role, ceId), UrlGoals(h, b, role), r)
    ensures var r' := Smooth(UrlPlan(h, b, role, ceId), r);
            r'.alive && (Participant(b, role).Some? ==> Settled(r', KeyOf(role, b.uid), role))
            && r'.regs == r.regs.Set(role, r'.regs.Ident(role))
            && r'.store.table == if Participant(b, role).None? then r.store.table
                                 else SettleIn(r.store.table, OldKey(h, b, role), KeyOf(role, b.uid),
                                               PageFor(b, Participant(b, role).value, role))
  {
    match Participant(b, role)
    case None => TracksNothing(r);
    case Some(p) =>
      var page := PageFor(b, p, role);
      var key, oldKey := KeyOf(role, b.uid), OldKey(h, b, role);
      var resolve := ResolvePlan(oldKey, key, page);
      TracksResolve(oldKey, key, page, r);
      var mid := Smooth(resolve, r);
      var publish := Publish(ceId, Dedupe.UrlStep(true, RoleName(role)),
                             AnnounceUrl(b.uid, Recipient(p.email, role), page));
      TracksPublish(publish, mid);
      TracksConcat(resolve, [publish], [Settle(oldKey, key, page)], [], r);
      SmoothSplit(resolve, [publish], r);
      assert [Settle(oldKey, key, page)] + [] == [Settle(oldKey, key, page)];
  }

  lemma TracksVideo(b: Booking, r: Run)
    requires r.alive && (b.client.Some? ==> Settled(r, KeyOf(Client, b.uid), Client))
    ensures Tracks(VideoPlan(b), VideoGoals(b), r)
    ensures var r' := Smooth(VideoPlan(b), r); r'.alive && r'.regs == r.regs && r'.store.table == r.store.table
  {
    match b.client
    case None => TracksNothing(r);
    case Some(p) =>
      var i := StoreVideo(b.uid, PageFor(b, p, Client));
      SmoothOne(i, r);
      TracksOne(i, VideoGoals(b), r);
  }

  lemma TracksNotifyOne(b: Booking, role: Role, trigger: string, withUrl: bool, ceId: string, r: Run)
    requires r.alive
    ensures Tracks(NotifyOne(b, role, trigger, withUrl, ceId), [], r)
    ensures var r' := Smooth(NotifyOne(b, role, trigger, withUrl, ceId), r);
            r'.alive && r'.regs == r.regs && r'.store.table == r.store.table
  {
    var plan := NotifyOne(b, role, trigger, withUrl, ceId);
    if plan == [] {
      TracksNothing(r);
    } else {
      assert plan == [plan[0]];
      TracksPublish(plan[0], r);
    }
  }

  lemma TracksNotify(b: Booking, trigger: string, withUrl: bool, ceId: string, r: Run)
    requires r.alive
    ensures Tracks(NotifyPlan(b, trigger, withUrl, ceId), [], r)
    ensures var r' := Smooth(NotifyPlan(b, trigger, withUrl, ceId), r);
            r'.alive && r'.regs == r.regs && r'.store.table == r.store.table
  {
    var p, q := NotifyOne(b, Organizer, trigger, withUrl, ceId), NotifyOne(b, Client, trigger, withUrl, ceId);
    TracksNotifyOne(b, Organizer, trigger, withUrl, ceId, r);
    TracksNotifyOne(b, Client, trigger, withUrl, ceId, Smooth(p, r));
    TracksConcat(p, q, [], [], r);
    NoneAndNone();
    SmoothSplit(p, q, r);
  }

  lemma TracksDeleteUrl(b: Booking, role: Role, ceId: string, r: Run)
    requires r.alive
    ensures Tracks(DeleteUrlPlan(b, role, ceId), [Unlink(KeyOf(role, b.uid))], r)
    ensures Smooth(DeleteUrlPlan(b, role, ceId), r).alive
  {
    var plan, goal := DeleteUrlPlan(b, role, ceId), Unlink(KeyOf(role, b.uid));
    SmoothOne(plan[0], r);
    TracksOne(plan[0], [goal], r);
    if |plan| == 1 {
      assert plan == [plan[0]];
    } else {
      assert plan == [plan[0]] + [plan[1]];
      var mid := Smooth([plan[0]], r);
      TracksPublish(plan[1], mid);
      TracksConcat([plan[0]], [plan[1]], [goal], [], r);
      assert [goal] + [] == [goal];
      SmoothSplit([plan[0]], [plan[1]], r);
    }
  }

  lemma TracksReject(b: Booking, trigger: string, reason: string, ceId: string, r: Run)
    requires r.alive
    ensures Tracks(RejectPlan(b, trigger, reason, ceId), [Reject(b.id, reason)], r)
  {
    var plan, goal := RejectPlan(b, trigger, reason, ceId), Reject(b.id, reason);
    SmoothOne(plan[0], r);
    TracksOne(plan[0], [goal], r);
    var r1 := Smooth([plan[0]], r);
    TracksPublish(plan[1], r1);
    TracksPublish(plan[2], Smooth([plan[1]], r1));
    TracksConcat([plan[1]], [plan[2]], [], [], r1);
    NoneAndNone();
    TracksConcat([plan[0]], [plan[1]] + [plan[2]], [goal], [], r);
    assert [goal] + [] == [goal];
    assert plan == [plan[0]] + ([plan[1]] + [plan[2]]);
  }

  predicate BothSettled(b: Booking, r: Run) {
    && (b.user.Some? ==> Settled(r, KeyOf(Organizer, b.uid), Organizer))
    && (b.client.Some? ==> Settled(r, KeyOf(Client, b.uid), Client))
  }

  // Resolving the client's link leaves the organizer's alone.
  lemma OrganizerLinkSurvives(h: Handler, b: Booking, t: Table)
    requires NoCrossing(h, b) && b.user.Some? && b.client.Some? && b.uid in t.links
    ensures var t' := SettleIn(t, OldKey(h, b, Client), KeyOf(Client, b.uid), PageFor(b, b.client.value, Client));
            b.uid in t'.links && t'.links[b.uid] == t.links[b.uid]
  {
    PrefixChanges(b.uid);
  }

  lemma TracksLinks(h: Handler, b: Booking, ceId: string, r: Run)
    requires r.alive && r.regs.organizer == None && r.regs.client == None
    ensures Tracks(LinksPlan(h, b, ceId), (UrlGoals(h, b, Organizer) + UrlGoals(h, b, Client)) + VideoGoals(b), r)
    ensures Smooth(LinksPlan(h, b, ceId), r).alive
    ensures NoCrossing(h, b) ==> BothSettled(b, Smooth(LinksPlan(h, b, ceId), r))
  {
    var p, q := UrlPlan(h, b, Organizer, ceId), UrlPlan(h, b, Client, ceId);
    TracksUrl(h, b, Organizer, ceId, r);
    var r1 := Smooth(p, r);
    TracksUrl(h, b, Client, ceId, r1);
    TracksConcat(p, q, UrlGoals(h, b, Organizer), UrlGoals(h, b, Client), r);
    SmoothSplit(p, q, r);
    var r2 := Smooth(p + q, r);
    if NoCrossing(h, b) && b.user.Some? && b.client.Some? {
      OrganizerLinkSurvives(h, b, r1.store.table);
    }
    TracksVideo(b, r2);
    TracksConcat(p + q, VideoPlan(b), UrlGoals(h, b, Organizer) + UrlGoals(h, b, Client), VideoGoals(b), r);
    SmoothSplit(p + q, VideoPlan(b), r);
  }

  lemma TracksCleanup(h: Handler, b: Booking, ceId: string, r: Run)
    requires r.alive
    ensures Tracks(CleanupPlan(h, b, ceId), CleanupGoals(h, b), r)
    ensures var r' := Smooth(CleanupPlan(h, b, ceId), r); r'.alive && r'.regs == r.regs
  {
    match h
    case Rescheduled(previousUid) =>
      var previous := PreviousUid(previousUid, b);
      if previous.Some? && previous.value != b.uid {
        TracksDeleteChat(previous.value, b.uid, false, ceId, r);
      } else {
        TracksNothing(r);
      }
    case Reassigned => TracksDeleteChat(b.uid, b.uid, true, ceId, r);
    case _ => TracksNothing(r);
  }

  lemma TracksSetup(h: Handler, b: Booking, ceId: string, r: Run)
    requires r.alive && r.regs.organizer == None && r.regs.client == None
    ensures Tracks(ChatPlan(b, ceId) + (LinksPlan(h, b, ceId) + NotifyPlan(b, Trigger(h), true, ceId)),
                   SetupGoals(h, b), r)
    ensures var r' := Smooth(ChatPlan(b, ceId) + (LinksPlan(h, b, ceId) + NotifyPlan(b, Trigger(h), true, ceId)), r);
            NoCrossing(h, b) && r'.alive ==> BothSettled(b, r')
  {
    var chat, links, notify := ChatPlan(b, ceId), LinksPlan(h, b, ceId), NotifyPlan(b, Trigger(h), true, ceId);
    var linkGoals := (UrlGoals(h, b, Organizer) + UrlGoals(h, b, Client)) + VideoGoals(b);
    TracksChat(b, ceId, r);
    var r1 := Smooth(chat, r);
    if r1.alive {
      TracksLinks(h, b, ceId, r1);
      TracksNotify(b, Trigger(h), true, ceId, Smooth(links, r1));
      TracksConcat(links, notify, linkGoals, [], r1);
      assert linkGoals + [] == linkGoals;
    }
    TracksConcat(chat, links + notify, ChatGoals(b), linkGoals, r);
    SmoothSplit(chat, links + notify, r);
    SmoothSplit(links, notify, r1);
  }

  lemma TracksCancelled(b: Booking, ceId: string, r: Run)
    requires r.alive
    ensures Tracks(Plan(Cancelled, b, ceId), Goals(Cancelled, b), r)
  {
    var notify, chat := NotifyPlan(b, Trigger(Cancelled), false, ceId), DeleteChatPlan(b.uid, b.uid, false, ceId);
    var p, q := DeleteUrlPlan(b, Organizer, ceId), DeleteUrlPlan(b, Client, ceId);
    var drop, unlink, unlink2 := Drop(b.uid, false), Unlink(KeyOf(Organizer, b.uid)), Unlink(KeyOf(Client, b.uid));
    TracksNotify(b, Trigger(Cancelled), false, ceId, r);
    var r1 := Smooth(notify, r);
    TracksDeleteChat(b.uid, b.uid, false, ceId, r1);
    var r2 := Smooth(chat, r1);
    TracksDeleteUrl(b, Organizer, ceId, r2);
    TracksDeleteUrl(b, Client, ceId, Smooth(p, r2));
    TracksConcat(p, q, [unlink], [unlink2], r2);
    TracksConcat(chat, p + q, [drop], [unlink] + [unlink2], r1);
    TracksConcat(notify, chat + (p + q), [], [drop] + ([unlink] + [unlink2]), r);
    assert [] + ([drop] + ([unlink] + [unlink2])) == Goals(Cancelled, b);
  }

  // Every handler, from any store, under any cut.
  lemma PlanTracksGoals(h: Handler, b: Booking, ceId: string, s: Store)
    ensures Tracks(Plan(h, b, ceId), Goals(h, b), Start(s))
    ensures var r' := Smooth(Plan(h, b, ceId), Start(s));
            (h.Created? || h.Rescheduled? || h.Reassigned?) && NoCrossing(h, b) && r'.alive ==> BothSettled(b, r')
  {
    var r := Start(s);
    match h
    case Rejected(trigger, reason) => TracksReject(b, trigger, reason, ceId, r);
    case Cancelled => TracksCancelled(b, ceId, r);
    case _ =>
      var cleanup, rest := CleanupPlan(h, b, ceId),
        ChatPlan(b, ceId) + (LinksPlan(h, b, ceId) + NotifyPlan(b, Trigger(h), true, ceId));
      TracksCleanup(h, b, ceId, r);
      TracksSetup(h, b, ceId, Smooth(cleanup, r));
      TracksConcat(cleanup, rest, CleanupGoals(h, b), SetupGoals(h, b), r);
      SmoothSplit(cleanup, rest, r);
  }
}
