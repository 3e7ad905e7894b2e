/** Idempotent resume: crashed attempts at a delivery leave no trace once one attempt goes through. */
module Convergence {
  import opened Wrappers
  import opened Domain
  import opened Machine
  import opened Handlers
  import opened Milestones
  import opened Tracking

  // The store after attempts at one delivery, each starting over with fresh local variables.
  function Redeliver(plan: seq<Instr>, s: Store, attempts: seq<seq<Fate>>): Store
    decreases attempts
  {
    if attempts == [] then s
    else Redeliver(plan, Attempt(plan, Start(s), attempts[0]).0.store, attempts[1..])
  }

  function Uninterrupted(h: Handler, b: Booking, ceId: string, s: Store): Store {
    Smooth(Plan(h, b, ceId), Start(s)).store
  }

  // An uninterrupted run reaches all the goals, unless the chat id is blocked.
  lemma UninterruptedReachesGoals(h: Handler, b: Booking, ceId: string, s: Store)
    ensures Observe(Uninterrupted(h, b, ceId, s)) == Reach(Observe(s), Goals(h, b)).0
    ensures Smooth(Plan(h, b, ceId), Start(s)).alive <==> !Reach(Observe(s), Goals(h, b)).1
  {
    PlanTracksGoals(h, b, ceId, s);
  }

  lemma OneCutConverges(h: Handler, b: Booking, ceId: string, s: Store, fates: seq<Fate>)
    requires Resumable(h, b, Observe(s)) && CutsOnly(fates)
    ensures var s' := Attempt(Plan(h, b, ceId), Start(s), fates).0.store;
            Resumable(h, b, Observe(s')) && Reach(Observe(s'), Goals(h, b)) == Reach(Observe(s), Goals(h, b))
  {
    var plan, ms := Plan(h, b, ceId), Goals(h, b);
    PlanTracksGoals(h, b, ceId, s);
    var k := CutIsPrefix(plan, Start(s), fates);
    assert AtMilestone(plan, ms, Start(s), k);
    var j :| 0 <= j <= |ms| && Observe(Smooth(plan[..k], Start(s)).store) == Reach(Observe(s), ms[..j]).0;
    GoalsAbsorb(h, b, Observe(s), j);
    assert forall m | m in ms[..j] :: m in ms;
    ResumableStays(h, b, Observe(s), ms[..j]);
  }

  // Main theorem. Any number of attempts cut off anywhere, then one that is not: the short-link
  // table with its idents, the chat status, the video URL and the rejections are those of one
  // uninterrupted run, and so is whether the run goes through.
  lemma {:induction false} CrashReplayConverges(h: Handler, b: Booking, ceId: string, s: Store,
                                                attempts: seq<seq<Fate>>)
    requires Resumable(h, b, Observe(s)) && forall fates | fates in attempts :: CutsOnly(fates)
    ensures var s' := Redeliver(Plan(h, b, ceId), s, attempts);
            && Observe(Uninterrupted(h, b, ceId, s')) == Observe(Uninterrupted(h, b, ceId, s))
            && Reach(Observe(s'), Goals(h, b)) == Reach(Observe(s), Goals(h, b))
            && (Smooth(Plan(h, b, ceId), Start(s')).alive <==> Smooth(Plan(h, b, ceId), Start(s)).alive)
    decreases attempts
  {
    var plan := Plan(h, b, ceId);
    UninterruptedReachesGoals(h, b, ceId, s);
    UninterruptedReachesGoals(h, b, ceId, Redeliver(plan, s, attempts));
    if attempts != [] {
      var s1 := Attempt(plan, Start(s), attempts[0]).0.store;
      assert attempts[0] in attempts && forall fates | fates in attempts[1..] :: fates in attempts;
      OneCutConverges(h, b, ceId, s, attempts[0]);
      CrashReplayConverges(h, b, ceId, s1, attempts[1..]);
      UninterruptedReachesGoals(h, b, ceId, s1);
    }
  }

  // The live chat, both participants' links opening the meeting, the client's URL stored.
  ghost predicate SetUp(b: Booking, o: Obs) {
    && (b.user.Some? && b.client.Some? ==> b.uid in o.status && o.status[b.uid] == LiveChat)
    && (forall role | Participant(b, role).Some? :: LinkOpensMeeting(b, role, o.table))
    && (b.client.Some? ==>
          b.uid in o.video && KeyOf(Client, b.uid) in o.table.links
          && o.video[b.uid] == Short(o.table.links[KeyOf(Client, b.uid)].ident))
  }

  predicate LinkOpensMeeting(b: Booking, role: Role, t: Table)
    requires Participant(b, role).Some?
  {
    var key := KeyOf(role, b.uid);
    key in t.links && OpensMeeting(t.links[key].target, b, Participant(b, role).value, role)
  }

  lemma HeldGoalsAreSetUp(h: Handler, b: Booking, o: Obs)
    requires forall m | m in SetupGoals(h, b) :: Holds(m, o)
    ensures SetUp(b, o)
  {
    var setup := SetupGoals(h, b);
    if b.user.Some? && b.client.Some? {
      assert Ensure(b.uid) in ChatGoals(b) && Ensure(b.uid) in setup;
      assert b.uid in Apply(Ensure(b.uid), o).status;
    }
    forall role | Participant(b, role).Some? ensures LinkOpensMeeting(b, role, o.table) {
      var m := UrlGoals(h, b, role)[0];
      assert m in UrlGoals(h, b, role) && m in setup;
      SettledEntry(o.table, m.oldKey, m.key, m.page);
    }
    if b.client.Some? {
      var show := Show(b.uid, KeyOf(Client, b.uid));
      assert show in VideoGoals(b) && show in setup;
      assert Participant(b, Client).Some? && LinkOpensMeeting(b, Client, o.table);
      assert b.uid in Apply(show, o).video;
    }
  }

  // Even after attempts in which the shortener failed silently, one run that goes through sets
  // everything right, whatever store it starts from.
  lemma OneGoodRunHeals(h: Handler, b: Booking, ceId: string, s: Store)
    requires (h.Created? || h.Rescheduled? || h.Reassigned?) && NoCrossing(h, b)
    requires Smooth(Plan(h, b, ceId), Start(s)).alive
    ensures SetUp(b, Observe(Uninterrupted(h, b, ceId, s)))
  {
    UninterruptedReachesGoals(h, b, ceId, s);
    GoalsAreSetUp(h, b, Observe(s));
  }

  lemma GoalsAreSetUp(h: Handler, b: Booking, o: Obs)
    requires (h.Created? || h.Rescheduled? || h.Reassigned?) && NoCrossing(h, b) && !Reach(o, Goals(h, b)).1
    ensures SetUp(b, Reach(o, Goals(h, b)).0)
  {
    var setup, o1 := SetupGoals(h, b), Reach(o, CleanupGoals(h, b)).0;
    ReachSplit(o, CleanupGoals(h, b), setup);
    SetupGoalsAreCompatible(h, b);
    forall m | m in setup ensures Holds(m, Reach(o1, setup).0) {
      var i :| 0 <= i < |setup| && setup[i] == m;
      AllHold(o1, setup, i);
    }
    HeldGoalsAreSetUp(h, b, Reach(o1, setup).0);
  }
}
