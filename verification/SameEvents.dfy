/** While the shortener works, a replay does not only repeat event ids: under one id it repeats
    the event, meeting URL included. */
module SameEvents {
  import opened Wrappers
  import opened Domain
  import Dedupe
  import opened Machine
  import opened Handlers
  import opened Milestones
  import opened Tracking
  import opened Convergence

  predicate Uses(i: Instr, role: Role) {
    i.Publish? && !i.draft.Fixed? && i.draft.page.role == role
  }

  predicate Sets(i: Instr, role: Role) {
    (i.MoveLink? || i.CreateLink?) && i.page.role == role
  }

  // A role's URL is final by the time it is first published.
  ghost predicate Disciplined(plan: seq<Instr>) {
    forall i, j, role :: 0 <= i < j < |plan| && Uses(plan[i], role) ==> !Sets(plan[j], role)
  }

  // The events of a plan whose URLs are those of the given registers.
  function Announced(plan: seq<Instr>, regs: Regs): set<Event> {
    set i | i in plan && i.Publish? :: EventOf(i.ceId, i.step, i.draft, regs)
  }

  function EventSet(log: seq<Event>): set<Event> { set e | e in log }

  lemma {:induction false} UnsetIsKept(plan: seq<Instr>, r: Run, role: Role)
    requires forall i | i in plan :: !Sets(i, role)
    ensures Smooth(plan, r).regs.Ident(role) == r.regs.Ident(role)
    decreases plan
  {
    if plan != [] && r.alive {
      assert plan[0] in plan;
      if Skips(plan[0], r.regs) {
        UnsetIsKept(plan[1..], r, role);
      } else {
        UnsetIsKept(plan[1..], Fated(plan[0], r, Go(Fine)), role);
      }
    }
  }

  lemma AnnouncedCons(plan: seq<Instr>, regs: Regs)
    requires plan != []
    ensures Announced(plan, regs)
            == (if plan[0].Publish? then {EventOf(plan[0].ceId, plan[0].step, plan[0].draft, regs)} else {})
               + Announced(plan[1..], regs)
  {
    assert forall i :: i in plan <==> i == plan[0] || i in plan[1..];
  }

  // A smooth run publishes its plan's events with the URLs it ends up with.
  lemma {:induction false} SmoothPublishes(plan: seq<Instr>, r: Run)
    requires Smooth(plan, r).alive && Disciplined(plan)
    ensures EventSet(Smooth(plan, r).store.accepted)
            == EventSet(r.store.accepted) + Announced(plan, Smooth(plan, r).regs)
    decreases plan
  {
    if plan != [] {
      var i, rest, end := plan[0], plan[1..], Smooth(plan, r);
      AnnouncedCons(plan, end.regs);
      var next := if Skips(i, r.regs) then r else Fated(i, r, Go(Fine));
      assert end == Smooth(rest, next);
      SmoothPublishes(rest, next);
      if i.Publish? {
        var e := EventOf(i.ceId, i.step, i.draft, r.regs);
        assert next.store.accepted == r.store.accepted + [e];
        assert EventSet(next.store.accepted) == EventSet(r.store.accepted) + {e};
        if !i.draft.Fixed? {
          forall k | k in rest ensures !Sets(k, i.draft.page.role) {
            var j :| 0 <= j < |rest| && rest[j] == k;
            assert plan[j + 1] == k && Uses(plan[0], i.draft.page.role);
          }
          UnsetIsKept(rest, next, i.draft.page.role);
        }
        assert e == EventOf(i.ceId, i.step, i.draft, end.regs);
      } else {
        assert next.store.accepted == r.store.accepted;
      }
    }
  }

  lemma {:induction false} LogGrows(plan: seq<Instr>, r: Run)
    ensures EventSet(r.store.accepted) <= EventSet(Smooth(plan, r).store.accepted)
    decreases plan
  {
    if plan != [] && r.alive {
      if Skips(plan[0], r.regs) {
        LogGrows(plan[1..], r);
      } else {
        LogGrows(plan[1..], Fated(plan[0], r, Go(Fine)));
      }
    }
  }

  lemma CutPublishesLess(plan: seq<Instr>, k: nat, r: Run)
    requires k <= |plan|
    ensures EventSet(Smooth(plan[..k], r).store.accepted) <= EventSet(Smooth(plan, r).store.accepted)
  {
    assert plan == plan[..k] + plan[k..];
    SmoothSplit(plan[..k], plan[k..], r);
    LogGrows(plan[k..], Smooth(plan[..k], r));
  }

  // ----- The handlers' plans are disciplined -----

  lemma DisciplinedConcat(p: seq<Instr>, q: seq<Instr>)
    requires Disciplined(p) && Disciplined(q)
    requires forall i, j, role | i in p && j in q && Uses(i, role) :: !Sets(j, role)
    ensures Disciplined(p + q)
  {
    forall i, j, role | 0 <= i < j < |p + q| && Uses((p + q)[i], role)
      ensures !Sets((p + q)[j], role)
    {
      if j < |p| {
        assert (p + q)[i] == p[i] && (p + q)[j] == p[j];
      } else if |p| <= i {
        assert (p + q)[i] == q[i - |p|] && (p + q)[j] == q[j - |p|];
      } else {
        assert p[i] in p && q[j - |p|] in q;
      }
    }
  }

  // A plan that uses and sets only the given roles.
  ghost predicate OnlyUses(plan: seq<Instr>, b: Booking) {
    forall i, role | i in plan && Uses(i, role) :: Participant(b, role).Some?
  }

  ghost predicate Quiet(plan: seq<Instr>) { forall i, role | i in plan :: !Sets(i, role) }

  ghost predicate Silent(plan: seq<Instr>) { forall i, role | i in plan :: !Uses(i, role) }

  lemma UrlPlanIsDisciplined(h: Handler, b: Booking, role: Role, ceId: string)
    ensures Disciplined(UrlPlan(h, b, role, ceId)) && OnlyUses(UrlPlan(h, b, role, ceId), b)
    ensures forall i, other | i in UrlPlan(h, b, role, ceId) && (Uses(i, other) || Sets(i, other)) :: other == role
  {
  }

  lemma LinksAreDisciplined(h: Handler, b: Booking, ceId: string)
    ensures Disciplined(LinksPlan(h, b, ceId)) && OnlyUses(LinksPlan(h, b, ceId), b)
  {
    var p, q := UrlPlan(h, b, Organizer, ceId), UrlPlan(h, b, Client, ceId);
    UrlPlanIsDisciplined(h, b, Organizer, ceId);
    UrlPlanIsDisciplined(h, b, Client, ceId);
    DisciplinedConcat(p, q);
    DisciplinedConcat(p + q, VideoPlan(b));
  }

  lemma NotifyIsQuiet(b: Booking, trigger: string, withUrl: bool, ceId: string)
    ensures Quiet(NotifyPlan(b, trigger, withUrl, ceId)) && OnlyUses(NotifyPlan(b, trigger, withUrl, ceId), b)
    ensures !withUrl ==> Silent(NotifyPlan(b, trigger, withUrl, ceId))
  {
  }

  lemma CleanupAndChatAreSilent(h: Handler, b: Booking, ceId: string)
    ensures Silent(CleanupPlan(h, b, ceId)) && Silent(ChatPlan(b, ceId))
  {
  }

  lemma RejectIsSilent(b: Booking, trigger: string, reason: string, ceId: string)
    ensures Silent(RejectPlan(b, trigger, reason, ceId))
  {
  }

  lemma DeleteUrlIsSilent(b: Booking, role: Role, ceId: string)
    ensures Silent(DeleteUrlPlan(b, role, ceId))
  {
  }

  lemma SilentConcat(p: seq<Instr>, q: seq<Instr>)
    requires Silent(p) && Silent(q)
    ensures Silent(p + q)
  {
  }

  lemma CancelledIsSilent(b: Booking, ceId: string)
    ensures Silent(Plan(Cancelled, b, ceId))
  {
    var notify, chat := NotifyPlan(b, Trigger(Cancelled), false, ceId), DeleteChatPlan(b.uid, b.uid, false, ceId);
    var p, q := DeleteUrlPlan(b, Organizer, ceId), DeleteUrlPlan(b, Client, ceId);
    NotifyIsQuiet(b, Trigger(Cancelled), false, ceId);
    DeleteUrlIsSilent(b, Organizer, ceId);
    DeleteUrlIsSilent(b, Client, ceId);
    SilentConcat(p, q);
    SilentConcat(chat, p + q);
    SilentConcat(notify, chat + (p + q));
  }

  lemma SilentIsDisciplined(plan: seq<Instr>, b: Booking)
    requires Silent(plan)
    ensures Disciplined(plan) && OnlyUses(plan, b)
  {
    forall i, role | 0 <= i < |plan| ensures !Uses(plan[i], role) {
      assert plan[i] in plan;
    }
  }

  lemma SetupIsDisciplined(h: Handler, b: Booking, ceId: string)
    ensures var plan := CleanupPlan(h, b, ceId)
      + (ChatPlan(b, ceId) + (LinksPlan(h, b, ceId) + NotifyPlan(b, Trigger(h), true, ceId)));
            Disciplined(plan) && OnlyUses(plan, b)
  {
    var cleanup, chat := CleanupPlan(h, b, ceId), ChatPlan(b, ceId);
    var links, notify := LinksPlan(h, b, ceId), NotifyPlan(b, Trigger(h), true, ceId);
    CleanupAndChatAreSilent(h, b, ceId);
    SilentIsDisciplined(cleanup, b);
    SilentIsDisciplined(chat, b);
    LinksAreDisciplined(h, b, ceId);
    NotifyIsQuiet(b, Trigger(h), true, ceId);
    QuietIsDisciplined(notify);
    DisciplinedConcat(links, notify);
    DisciplinedConcat(chat, links + notify);
    DisciplinedConcat(cleanup, chat + (links + notify));
  }

  lemma QuietIsDisciplined(plan: seq<Instr>)
    requires Quiet(plan)
    ensures Disciplined(plan)
  {
    forall j, role | 0 <= j < |plan| ensures !Sets(plan[j], role) {
      assert plan[j] in plan;
    }
  }

  lemma PlanIsDisciplined(h: Handler, b: Booking, ceId: string)
    ensures Disciplined(Plan(h, b, ceId)) && OnlyUses(Plan(h, b, ceId), b)
  {
    match h
    case Rejected(trigger, reason) =>
      RejectIsSilent(b, trigger, reason, ceId);
      SilentIsDisciplined(Plan(h, b, ceId), b);
    case Cancelled =>
      CancelledIsSilent(b, ceId);
      SilentIsDisciplined(Plan(h, b, ceId), b);
    case _ => SetupIsDisciplined(h, b, ceId);
  }

  // ----- The events to expect, read off the final table -----

  function Known(t: Table, key: string): Option<nat> {
    if key in t.links then Some(t.links[key].ident) else None
  }

  function RegsFrom(t: Table, b: Booking): Regs {
    Regs(false, Known(t, KeyOf(Organizer, b.uid)), Known(t, KeyOf(Client, b.uid)))
  }

  function Expected(h: Handler, b: Booking, ceId: string, t: Table): set<Event> {
    Announced(Plan(h, b, ceId), RegsFrom(t, b))
  }

  lemma AnnouncedAgree(plan: seq<Instr>, b: Booking, regs: Regs, regs2: Regs)
    requires forall i, role | i in plan && Uses(i, role) :: regs.Ident(role) == regs2.Ident(role)
    ensures Announced(plan, regs) == Announced(plan, regs2)
  {
    forall i | i in plan && i.Publish?
      ensures EventOf(i.ceId, i.step, i.draft, regs) == EventOf(i.ceId, i.step, i.draft, regs2)
    {
      if !i.draft.Fixed? {
        assert Uses(i, i.draft.page.role);
      }
    }
  }

  lemma NothingUsedElsewhere(h: Handler, b: Booking, ceId: string)
    requires h.Rejected? || h.Cancelled?
    ensures Silent(Plan(h, b, ceId))
  {
    if h.Cancelled? {
      CancelledIsSilent(b, ceId);
    } else {
      RejectIsSilent(b, h.trigger, h.reason, ceId);
    }
  }

  lemma UninterruptedPublishesExpected(h: Handler, b: Booking, ceId: string, s: Store)
    requires NoCrossing(h, b) && Smooth(Plan(h, b, ceId), Start(s)).alive
    ensures var s' := Uninterrupted(h, b, ceId, s);
            EventSet(s'.accepted) == EventSet(s.accepted) + Expected(h, b, ceId, s'.table)
  {
    var plan := Plan(h, b, ceId);
    var end := Smooth(plan, Start(s));
    PlanIsDisciplined(h, b, ceId);
    SmoothPublishes(plan, Start(s));
    PlanTracksGoals(h, b, ceId, s);
    forall i, role | i in plan && Uses(i, role)
      ensures end.regs.Ident(role) == RegsFrom(end.store.table, b).Ident(role)
    {
      if h.Rejected? || h.Cancelled? {
        NothingUsedElsewhere(h, b, ceId);
      }
    }
    AnnouncedAgree(plan, b, end.regs, RegsFrom(end.store.table, b));
  }

  // Main theorem. Over any crashed attempts no event other than those of the uninterrupted run is
  // accepted, and one attempt that goes through completes them.
  lemma {:induction false} ReplaysRepeatEvents(h: Handler, b: Booking, ceId: string, s: Store, attempts: seq<seq<Fate>>)
    requires ceId != ""
    requires NoCrossing(h, b) && forall fates | fates in attempts :: CutsOnly(fates)
    requires Smooth(Plan(h, b, ceId), Start(s)).alive
    ensures var s' := Redeliver(Plan(h, b, ceId), s, attempts);
            var whole := EventSet(Uninterrupted(h, b, ceId, s).accepted);
            && EventSet(s.accepted) <= EventSet(s'.accepted) <= whole
            && EventSet(Uninterrupted(h, b, ceId, s').accepted) == whole
    decreases attempts
  {
    var plan := Plan(h, b, ceId);
    if attempts == [] {
      LogGrows(plan, Start(s));
    } else {
      var s1 := Attempt(plan, Start(s), attempts[0]).0.store;
      assert attempts[0] in attempts && forall fates | fates in attempts[1..] :: fates in attempts;
      OneAttemptRepeats(h, b, ceId, s, attempts[0]);
      ReplaysRepeatEvents(h, b, ceId, s1, attempts[1..]);
    }
  }

  lemma OneAttemptRepeats(h: Handler, b: Booking, ceId: string, s: Store, fates: seq<Fate>)
    requires NoCrossing(h, b) && CutsOnly(fates)
    requires Smooth(Plan(h, b, ceId), Start(s)).alive
    ensures var s1 := Attempt(Plan(h, b, ceId), Start(s), fates).0.store;
            && Smooth(Plan(h, b, ceId), Start(s1)).alive
            && EventSet(s.accepted) <= EventSet(s1.accepted) <= EventSet(Uninterrupted(h, b, ceId, s).accepted)
            && EventSet(Uninterrupted(h, b, ceId, s1).accepted) == EventSet(Uninterrupted(h, b, ceId, s).accepted)
  {
    var plan := Plan(h, b, ceId);
    var k := CutIsPrefix(plan, Start(s), fates);
    var s1 := Attempt(plan, Start(s), fates).0.store;
    CutPublishesLess(plan, k, Start(s));
    LogGrows(plan[..k], Start(s));
    UninterruptedReachesGoals(h, b, ceId, s);
    UninterruptedReachesGoals(h, b, ceId, s1);
    OneCutConverges(h, b, ceId, s, fates);
    UninterruptedPublishesExpected(h, b, ceId, s);
    UninterruptedPublishesExpected(h, b, ceId, s1);
  }
}
