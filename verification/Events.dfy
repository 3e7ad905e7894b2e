/** What reaches the event receiver over crashed and repeated attempts: always the same ids, and,
    while the shortener works, the very same events. */
module Events {
  import opened Wrappers
  import opened Domain
  import Dedupe
  import opened Machine
  import opened Handlers
  import opened Milestones
  import opened Tracking
  import opened Convergence

  function Keys(log: seq<Event>): set<Option<string>> { set e | e in log :: e.key }

  function PlanKeys(plan: seq<Instr>): set<Option<string>> {
    set i | i in plan && i.Publish? :: Dedupe.Key(i.ceId, Dedupe.Parts(i.step))
  }

  // ----- Ids: under any crashes and any shortener failures -----

  lemma PlanKeysCons(plan: seq<Instr>)
    requires plan != []
    ensures PlanKeys(plan) == PlanKeys(plan[1..])
              + if plan[0].Publish? then {Dedupe.Key(plan[0].ceId, Dedupe.Parts(plan[0].step))} else {}
  {
    assert forall i :: i in plan <==> i == plan[0] || i in plan[1..];
  }

  // One attempt only accepts ids of its plan, and all of them once it goes through.
  lemma {:induction false} AttemptKeys(plan: seq<Instr>, r: Run, fates: seq<Fate>)
    requires r.alive
    ensures var r' := Attempt(plan, r, fates).0;
            && Keys(r.store.accepted) <= Keys(r'.store.accepted) <= Keys(r.store.accepted) + PlanKeys(plan)
            && (r'.alive ==> Keys(r'.store.accepted) == Keys(r.store.accepted) + PlanKeys(plan))
    decreases plan
  {
    if plan != [] {
      PlanKeysCons(plan);
      if Skips(plan[0], r.regs) {
        AttemptKeys(plan[1..], r, fates);
      } else {
        var fate, rest := if fates == [] then Go(Fine) else fates[0], if fates == [] then [] else fates[1..];
        var next := Fated(plan[0], r, fate);
        FatedKeys(plan[0], r, fate);
        if next.alive {
          AttemptKeys(plan[1..], next, rest);
        }
      }
    }
  }

  lemma FatedKeys(i: Instr, r: Run, fate: Fate)
    requires r.alive
    ensures var r' := Fated(i, r, fate);
            Keys(r'.store.accepted) == Keys(r.store.accepted)
              + if r'.alive && i.Publish? then {Dedupe.Key(i.ceId, Dedupe.Parts(i.step))} else {}
  {
    var r' := Fated(i, r, fate);
    if r'.alive && i.Publish? {
      var e := EventOf(i.ceId, i.step, i.draft, r.regs);
      assert r'.store.accepted == r.store.accepted + [e];
      assert e in r'.store.accepted;
    } else {
      assert r'.store.accepted == r.store.accepted;
    }
  }

  // Main theorem. With an inbound id, whatever crashed attempts came before, and however the shortener failed in them,
  // the accepted ids stay among those of the plan, and an attempt that goes through completes them.
  lemma {:induction false} AcceptedIdsConverge(h: Handler, b: Booking, ceId: string, s: Store,
                                               attempts: seq<seq<Fate>>, last: seq<Fate>)
    requires ceId != ""
    ensures var plan := Plan(h, b, ceId);
            var s' := Redeliver(plan, s, attempts);
            var end := Attempt(plan, Start(s'), last).0;
            && Keys(s.accepted) <= Keys(s'.accepted) <= Keys(s.accepted) + PlanKeys(plan)
            && (end.alive ==> Keys(end.store.accepted) == Keys(s.accepted) + PlanKeys(plan))
    decreases attempts
  {
    var plan := Plan(h, b, ceId);
    if attempts == [] {
      AttemptKeys(plan, Start(s), last);
    } else {
      AttemptKeys(plan, Start(s), attempts[0]);
      AcceptedIdsConverge(h, b, ceId, Attempt(plan, Start(s), attempts[0]).0.store, attempts[1..], last);
    }
  }

  // ----- Without an inbound id every event is a new one -----

  // Every event without a key has a random id of its own.
  function Unnamed(log: seq<Event>): nat {
    if log == [] then 0
    else Unnamed(log[..|log| - 1]) + if log[|log| - 1].key.None? then 1 else 0
  }

  function Names(log: seq<Event>): set<string> { set e | e in log && e.key.Some? :: e.key.value }

  // How many events the receiver tells apart.
  function DistinctIds(log: seq<Event>): nat { |Names(log)| + Unnamed(log) }

  function Publications(plan: seq<Instr>): nat {
    if plan == [] then 0 else (if plan[0].Publish? then 1 else 0) + Publications(plan[1..])
  }

  ghost predicate AllUnder(plan: seq<Instr>, ceId: string) {
    forall i | i in plan && i.Publish? :: i.ceId == ceId
  }

  lemma PlanIsUnder(h: Handler, b: Booking, ceId: string)
    ensures AllUnder(Plan(h, b, ceId), ceId)
  {
    var plan := Plan(h, b, ceId);
    if h.Rejected? {
      assert plan == RejectPlan(b, h.trigger, h.reason, ceId);
    } else {
      PlanIsRanked(h, b, ceId);
      forall i | i in plan && i.Publish? ensures i.ceId == ceId {
        var k :| 0 <= k < |plan| && plan[k] == i;
      }
    }
  }

  lemma FatedUnnamed(i: Instr, r: Run, fate: Fate)
    requires r.alive
    ensures var r' := Fated(i, r, fate);
            Unnamed(r'.store.accepted)
            == Unnamed(r.store.accepted) + if r'.alive && i.Publish? && i.ceId == "" then 1 else 0
  {
    var r' := Fated(i, r, fate);
    if r'.alive && i.Publish? {
      var e := EventOf(i.ceId, i.step, i.draft, r.regs);
      assert r'.store.accepted == r.store.accepted + [e];
      assert r'.store.accepted[..|r'.store.accepted| - 1] == r.store.accepted;
    } else {
      assert r'.store.accepted == r.store.accepted;
    }
  }

  // Each publishing step an attempt gets through is one more event without a key, or none is.
  lemma {:induction false} AttemptUnnamed(plan: seq<Instr>, ceId: string, r: Run, fates: seq<Fate>) returns (k: nat)
    requires r.alive && AllUnder(plan, ceId)
    ensures var r' := Attempt(plan, r, fates).0;
            && k <= |plan| && (r'.alive ==> k == |plan|)
            && Unnamed(r'.store.accepted)
               == Unnamed(r.store.accepted) + if ceId == "" then Publications(plan[..k]) else 0
    decreases plan
  {
    k := 0;
    if plan != [] {
      var i, rest := plan[0], plan[1..];
      assert i in plan && forall j | j in rest :: j in plan;
      var skip := Skips(i, r.regs);
      var fate := if fates == [] then Go(Fine) else fates[0];
      var next := if skip then r else Fated(i, r, fate);
      FatedUnnamed(i, r, fate);
      if next.alive {
        k := AttemptUnnamed(rest, ceId, next, if skip || fates == [] then fates else fates[1..]);
        k := k + 1;
        assert plan[..k][1..] == rest[..k - 1];
      }
    }
  }

  lemma AttemptNames(plan: seq<Instr>, r: Run, fates: seq<Fate>)
    requires r.alive && PlanKeys(plan) <= Keys(r.store.accepted) + {None}
    ensures Names(Attempt(plan, r, fates).0.store.accepted) == Names(r.store.accepted)
  {
    AttemptKeys(plan, r, fates);
    var log, log' := r.store.accepted, Attempt(plan, r, fates).0.store.accepted;
    forall name ensures name in Names(log') <==> name in Names(log) {
      assert name in Names(log) <==> Some(name) in Keys(log);
      assert name in Names(log') <==> Some(name) in Keys(log');
    }
  }

  // Main theorem. A redelivery after a delivery that went through adds no event the receiver can tell
  // apart if and only if there is an inbound id, or nothing is published at all; without one it adds
  // each published step once more.
  lemma RepeatAddsNothingIffNamed(h: Handler, b: Booking, ceId: string, s: Store, first: seq<Fate>, again: seq<Fate>)
    requires Attempt(Plan(h, b, ceId), Start(s), first).0.alive
    requires Attempt(Plan(h, b, ceId), Start(Attempt(Plan(h, b, ceId), Start(s), first).0.store), again).0.alive
    ensures var plan := Plan(h, b, ceId);
            var s1 := Attempt(plan, Start(s), first).0.store;
            var s2 := Attempt(plan, Start(s1), again).0.store;
            && DistinctIds(s2.accepted) == DistinctIds(s1.accepted) + (if ceId == "" then Publications(plan) else 0)
            && (DistinctIds(s2.accepted) == DistinctIds(s1.accepted) <==> ceId != "" || Publications(plan) == 0)
  {
    var plan := Plan(h, b, ceId);
    var s1 := Attempt(plan, Start(s), first).0.store;
    PlanIsUnder(h, b, ceId);
    AttemptKeys(plan, Start(s), first);
    AttemptNames(plan, Start(s1), again);
    var k := AttemptUnnamed(plan, ceId, Start(s1), again);
    assert plan[..k] == plan;
  }

  // Without an inbound id, over any attempts: events are only added, and the names stay.
  lemma {:induction false} UnnamedEventsPileUp(h: Handler, b: Booking, s: Store,
                                               attempts: seq<seq<Fate>>, last: seq<Fate>)
    ensures var plan := Plan(h, b, "");
            var s' := Redeliver(plan, s, attempts);
            var end := Attempt(plan, Start(s'), last).0;
            && Unnamed(s.accepted) <= Unnamed(s'.accepted)
            && (end.alive ==> Unnamed(end.store.accepted) == Unnamed(s'.accepted) + Publications(plan))
    decreases attempts
  {
    var plan := Plan(h, b, "");
    PlanIsUnder(h, b, "");
    if attempts == [] {
      var k := AttemptUnnamed(plan, "", Start(s), last);
      assert plan[..|plan|] == plan;
    } else {
      var k := AttemptUnnamed(plan, "", Start(s), attempts[0]);
      UnnamedEventsPileUp(h, b, Attempt(plan, Start(s), attempts[0]).0.store, attempts[1..], last);
    }
  }

  // ----- The steps of one plan have different keys -----

  // A plan publishes plain steps of one inbound event in this order; a cancellation deletes the chat after notifying.
  function Rank(step: Dedupe.Step, cancelling: bool): nat {
    match step
    case ChatStep(created, _) => if created then 1 else if cancelling then 6 else 0
    case UrlStep(made, role) => (if made then 2 else 7) + if role == "client" then 1 else 0
    case NotifyStep(_, role) => 4 + if role == "client" then 1 else 0
    case RejectedStep => 9
  }

  ghost predicate Ranked(plan: seq<Instr>, ceId: string, cancelling: bool, lo: nat, hi: nat) {
    && (forall i :: 0 <= i < |plan| && plan[i].Publish? ==>
          plan[i].ceId == ceId && Dedupe.Plain(plan[i].step) && lo <= Rank(plan[i].step, cancelling) < hi)
    && (forall i, j :: 0 <= i < j < |plan| && plan[i].Publish? && plan[j].Publish? ==>
          Rank(plan[i].step, cancelling) < Rank(plan[j].step, cancelling))
  }

  lemma RankedConcat(p: seq<Instr>, q: seq<Instr>, ceId: string, cancelling: bool, lo: nat, mid: nat, hi: nat)
    requires lo <= mid <= hi && Ranked(p, ceId, cancelling, lo, mid) && Ranked(q, ceId, cancelling, mid, hi)
    ensures Ranked(p + q, ceId, cancelling, lo, hi)
  {
    forall i, j | 0 <= i < j < |p + q| && (p + q)[i].Publish? && (p + q)[j].Publish?
      ensures Rank((p + q)[i].step, cancelling) < Rank((p + q)[j].step, cancelling)
    {
      if i < |p| <= j {
        assert Rank(p[i].step, cancelling) < mid <= Rank(q[j - |p|].step, cancelling);
      } else if j < |p| {
        assert (p + q)[i] == p[i] && (p + q)[j] == p[j];
      } else {
        assert (p + q)[i] == q[i - |p|] && (p + q)[j] == q[j - |p|];
      }
    }
  }

  lemma RankedConcat3(p: seq<Instr>, q: seq<Instr>, r: seq<Instr>, ceId: string, cancelling: bool,
                      lo: nat, mid: nat, mid2: nat, hi: nat)
    requires lo <= mid <= mid2 <= hi && Ranked(p, ceId, cancelling, lo, mid)
    requires Ranked(q, ceId, cancelling, mid, mid2) && Ranked(r, ceId, cancelling, mid2, hi)
    ensures Ranked(p + q + r, ceId, cancelling, lo, hi)
    ensures Ranked(p + (q + r), ceId, cancelling, lo, hi)
  {
    RankedConcat(p, q, ceId, cancelling, lo, mid, mid2);
    RankedConcat(p + q, r, ceId, cancelling, lo, mid2, hi);
    assert p + (q + r) == p + q + r;
  }

  lemma RankedConcat4(p: seq<Instr>, q: seq<Instr>, r: seq<Instr>, t: seq<Instr>, ceId: string, cancelling: bool,
                      lo: nat, mid: nat, mid2: nat, mid3: nat, hi: nat)
    requires lo <= mid <= mid2 <= mid3 <= hi && Ranked(p, ceId, cancelling, lo, mid)
    requires Ranked(q, ceId, cancelling, mid, mid2) && Ranked(r, ceId, cancelling, mid2, mid3)
    requires Ranked(t, ceId, cancelling, mid3, hi)
    ensures Ranked(p + (q + (r + t)), ceId, cancelling, lo, hi)
  {
    RankedConcat3(q, r, t, ceId, cancelling, mid, mid2, mid3, hi);
    RankedConcat(p, q + (r + t), ceId, cancelling, lo, mid, hi);
  }

  lemma NotifyOneIsRanked(b: Booking, role: Role, trigger: string, withUrl: bool, ceId: string, cancelling: bool)
    requires Dedupe.ColonFree(trigger)
    ensures Ranked(NotifyOne(b, role, trigger, withUrl, ceId), ceId, cancelling,
                   if role == Client then 5 else 4, if role == Client then 6 else 5)
  {
  }

  lemma NotifyIsRanked(b: Booking, trigger: string, withUrl: bool, ceId: string, cancelling: bool)
    requires Dedupe.ColonFree(trigger)
    ensures Ranked(NotifyPlan(b, trigger, withUrl, ceId), ceId, cancelling, 4, 6)
  {
    NotifyOneIsRanked(b, Organizer, trigger, withUrl, ceId, cancelling);
    NotifyOneIsRanked(b, Client, trigger, withUrl, ceId, cancelling);
    RankedConcat(NotifyOne(b, Organizer, trigger, withUrl, ceId), NotifyOne(b, Client, trigger, withUrl, ceId),
                 ceId, cancelling, 4, 5, 6);
  }

  lemma UrlIsRanked(h: Handler, b: Booking, role: Role, ceId: string)
    ensures Ranked(UrlPlan(h, b, role, ceId), ceId, false, if role == Client then 3 else 2,
                   if role == Client then 4 else 3)
  {
  }

  lemma VideoIsRanked(b: Booking, ceId: string)
    ensures Ranked(VideoPlan(b), ceId, false, 4, 4)
  {
  }

  lemma LinksAreRanked(h: Handler, b: Booking, ceId: string)
    ensures Ranked(LinksPlan(h, b, ceId), ceId, false, 2, 4)
  {
    UrlIsRanked(h, b, Organizer, ceId);
    UrlIsRanked(h, b, Client, ceId);
    VideoIsRanked(b, ceId);
    RankedConcat3(UrlPlan(h, b, Organizer, ceId), UrlPlan(h, b, Client, ceId), VideoPlan(b), ceId, false, 2, 3, 4, 4);
  }

  lemma SetupIsRanked(h: Handler, b: Booking, ceId: string)
    requires !h.Rejected?
    ensures Ranked(CleanupPlan(h, b, ceId)
                   + (ChatPlan(b, ceId) + (LinksPlan(h, b, ceId) + NotifyPlan(b, Trigger(h), true, ceId))),
                   ceId, false, 0, 6)
  {
    CleanupIsRanked(h, b, ceId);
    ChatIsRanked(b, ceId);
    LinksAreRanked(h, b, ceId);
    NotifyIsRanked(b, Trigger(h), true, ceId, false);
    RankedConcat4(CleanupPlan(h, b, ceId), ChatPlan(b, ceId), LinksPlan(h, b, ceId),
                  NotifyPlan(b, Trigger(h), true, ceId),
                  ceId, false, 0, 1, 2, 4, 6);
  }

  lemma ChatIsRanked(b: Booking, ceId: string)
    ensures Ranked(ChatPlan(b, ceId), ceId, false, 1, 2)
  {
  }

  lemma CleanupIsRanked(h: Handler, b: Booking, ceId: string)
    ensures Ranked(CleanupPlan(h, b, ceId), ceId, false, 0, 1)
  {
  }

  lemma DeleteUrlIsRanked(b: Booking, role: Role, ceId: string)
    ensures Ranked(DeleteUrlPlan(b, role, ceId), ceId, true, if role == Client then 8 else 7,
                   if role == Client then 9 else 8)
  {
  }

  lemma DeleteChatIsRanked(b: Booking, ceId: string)
    ensures Ranked(DeleteChatPlan(b.uid, b.uid, false, ceId), ceId, true, 6, 7)
  {
  }

  lemma CancelledIsRanked(b: Booking, ceId: string)
    ensures Ranked(NotifyPlan(b, Trigger(Cancelled), false, ceId)
                   + (DeleteChatPlan(b.uid, b.uid, false, ceId)
                      + (DeleteUrlPlan(b, Organizer, ceId) + DeleteUrlPlan(b, Client, ceId))),
                   ceId, true, 4, 9)
  {
    NotifyIsRanked(b, Trigger(Cancelled), false, ceId, true);
    DeleteChatIsRanked(b, ceId);
    DeleteUrlIsRanked(b, Organizer, ceId);
    DeleteUrlIsRanked(b, Client, ceId);
    RankedConcat4(NotifyPlan(b, Trigger(Cancelled), false, ceId), DeleteChatPlan(b.uid, b.uid, false, ceId),
                  DeleteUrlPlan(b, Organizer, ceId), DeleteUrlPlan(b, Client, ceId), ceId, true, 4, 6, 7, 8, 9);
  }

  lemma RejectIsRanked(b: Booking, trigger: string, reason: string, ceId: string)
    requires Dedupe.ColonFree(trigger)
    ensures Ranked(RejectPlan(b, trigger, reason, ceId), ceId, false, 4, 10)
  {
  }

  lemma RankedWiden(plan: seq<Instr>, ceId: string, cancelling: bool, lo: nat, hi: nat)
    requires Ranked(plan, ceId, cancelling, lo, hi) && hi <= 10
    ensures Ranked(plan, ceId, cancelling, 0, 10)
  {
  }

  lemma PlanIsRanked(h: Handler, b: Booking, ceId: string)
    requires h.Rejected? ==> Dedupe.ColonFree(h.trigger)
    ensures Ranked(Plan(h, b, ceId), ceId, h.Cancelled?, 0, 10)
  {
    match h
    case Rejected(trigger, reason) =>
      RejectIsRanked(b, trigger, reason, ceId);
      RankedWiden(RejectPlan(b, trigger, reason, ceId), ceId, false, 4, 10);
    case Cancelled =>
      CancelledIsRanked(b, ceId);
      RankedWiden(Plan(h, b, ceId), ceId, true, 4, 9);
    case _ =>
      SetupIsRanked(h, b, ceId);
      RankedWiden(Plan(h, b, ceId), ceId, false, 0, 6);
  }

  // Within one attempt no two events share a key.
  lemma KeysOfAnAttemptAreDistinct(h: Handler, b: Booking, ceId: string, i: nat, j: nat)
    requires ceId != "" && Dedupe.ColonFree(ceId) && (h.Rejected? ==> Dedupe.ColonFree(h.trigger))
    requires i < j < |Plan(h, b, ceId)| && Plan(h, b, ceId)[i].Publish? && Plan(h, b, ceId)[j].Publish?
    ensures var plan := Plan(h, b, ceId);
            Dedupe.Key(plan[i].ceId, Dedupe.Parts(plan[i].step)) != Dedupe.Key(plan[j].ceId, Dedupe.Parts(plan[j].step))
  {
    PlanIsRanked(h, b, ceId);
    RankedKeysDiffer(Plan(h, b, ceId), ceId, h.Cancelled?, i, j);
  }

  lemma RankedKeysDiffer(plan: seq<Instr>, ceId: string, cancelling: bool, i: nat, j: nat)
    requires ceId != "" && Dedupe.ColonFree(ceId) && Ranked(plan, ceId, cancelling, 0, 10)
    requires i < j < |plan| && plan[i].Publish? && plan[j].Publish?
    ensures Dedupe.Key(plan[i].ceId, Dedupe.Parts(plan[i].step)) != Dedupe.Key(plan[j].ceId, Dedupe.Parts(plan[j].step))
  {
    if Dedupe.Key(ceId, Dedupe.Parts(plan[i].step)) == Dedupe.Key(ceId, Dedupe.Parts(plan[j].step)) {
      Dedupe.KeysAreInjective(ceId, plan[i].step, ceId, plan[j].step);
    }
  }
}
