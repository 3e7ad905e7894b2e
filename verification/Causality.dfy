/** Which effects come first: what a message tells of has been done by the time it is accepted, and nothing
    is taken away before its participants were told, whatever crashes and however the shortener fails. */
module Causality {
  import opened Wrappers
  import opened Domain
  import opened Dedupe
  import opened Machine
  import opened Handlers

  function SetupPlan(h: Handler, b: Booking, ceId: string): seq<Instr> {
    CleanupPlan(h, b, ceId) + ChatPlan(b, ceId) + LinksPlan(h, b, ceId)
  }

  predicate Notifies(i: Instr) {
    i.Publish? && (i.draft.NotifyWithUrl? || (i.draft.Fixed? && i.draft.note.Notification?))
  }

  ghost predicate Quiet(plan: seq<Instr>) { forall i | i in plan :: !Notifies(i) }

  predicate TouchesChannels(i: Instr) { i.DeleteChannel? || i.CreateChannel? || i.SendWelcome? }

  ghost predicate LeavesChannels(plan: seq<Instr>) { forall i | i in plan :: !TouchesChannels(i) }

  ghost predicate OnlyPublishes(plan: seq<Instr>) { forall i | i in plan :: i.Publish? }

  // No notification but those there were.
  ghost predicate NoNewNotification(s: Store, s': Store) {
    forall e | e in s'.accepted && e.note.Notification? :: e in s.accepted
  }

  lemma {:induction false} QuietAttempt(plan: seq<Instr>, r: Run, fates: seq<Fate>)
    requires Quiet(plan)
    ensures NoNewNotification(r.store, Attempt(plan, r, fates).0.store)
    decreases plan
  {
    if plan != [] && r.alive {
      assert plan[0] in plan && forall i | i in plan[1..] :: i in plan;
      if Skips(plan[0], r.regs) {
        QuietAttempt(plan[1..], r, fates);
      } else {
        var fate := if fates == [] then Go(Fine) else fates[0];
        QuietAttempt(plan[1..], Fated(plan[0], r, fate), if fates == [] then [] else fates[1..]);
      }
    }
  }

  lemma {:induction false} ChannelsStay(plan: seq<Instr>, r: Run, fates: seq<Fate>)
    requires LeavesChannels(plan)
    ensures Attempt(plan, r, fates).0.store.channels == r.store.channels
    decreases plan
  {
    if plan != [] && r.alive {
      assert plan[0] in plan && forall i | i in plan[1..] :: i in plan;
      if Skips(plan[0], r.regs) {
        ChannelsStay(plan[1..], r, fates);
      } else {
        var fate := if fates == [] then Go(Fine) else fates[0];
        ChannelsStay(plan[1..], Fated(plan[0], r, fate), if fates == [] then [] else fates[1..]);
      }
    }
  }

  // Publishing changes nothing but the accepted events, and these are the plan's, all of them at the end.
  lemma {:induction false} PublishingOnlyAdds(plan: seq<Instr>, r: Run, fates: seq<Fate>)
    requires OnlyPublishes(plan)
    ensures var end := Attempt(plan, r, fates).0;
            && end.regs == r.regs && end.store == r.store.(accepted := end.store.accepted)
            && (forall e | e in end.store.accepted && e !in r.store.accepted ::
                  exists i :: i in plan && e == EventOf(i.ceId, i.step, i.draft, r.regs))
            && (forall e | e in r.store.accepted :: e in end.store.accepted)
            && (end.alive ==> forall i | i in plan :: EventOf(i.ceId, i.step, i.draft, r.regs) in end.store.accepted)
    decreases plan
  {
    if plan != [] && r.alive {
      assert plan[0] in plan && forall i | i in plan[1..] :: i in plan;
      var fate := if fates == [] then Go(Fine) else fates[0];
      PublishingOnlyAdds(plan[1..], Fated(plan[0], r, fate), if fates == [] then [] else fates[1..]);
    }
  }

  // ----- A rejection -----

  // The client is told only once the row is rejected, and the world only after the client.
  lemma RejectedBeforeTold(b: Booking, trigger: string, reason: string, ceId: string, s: Store, fates: seq<Fate>)
    ensures var end := Attempt(Plan(Rejected(trigger, reason), b, ceId), Start(s), fates).0.store;
            && (end.accepted != s.accepted ==> b.id in end.rejected && end.rejected[b.id] == reason)
            && (forall e | e in end.accepted && e !in s.accepted && e.note.BookingRejected? ::
                  exists told :: told in end.accepted && told.note.Notification? && told.note.uid == b.uid
                                 && told.note.trigger == trigger)
  {
    var plan := RejectPlan(b, trigger, reason, ceId);
    var row, told, world := plan[0], plan[1], plan[2];
    assert plan == [row] + [told, world];
    AttemptSplit([row], [told, world], Start(s), fates);
    var (r1, f1) := Attempt([row], Start(s), fates);
    PublishingOnlyAdds([told, world], r1, f1);
    if r1.alive {
      assert [told, world] == [told] + [world];
      AttemptSplit([told], [world], r1, f1);
      var (r2, f2) := Attempt([told], r1, f1);
      PublishingOnlyAdds([told], r1, f1);
      PublishingOnlyAdds([world], r2, f2);
      if r2.alive {
        assert told in [told];
      }
    }
  }

  // ----- A cancellation -----

  // No link and no chat is taken away before everybody was told.
  lemma ToldBeforeDeleted(b: Booking, ceId: string, s: Store, fates: seq<Fate>, role: Role)
    requires Participant(b, role).Some?
    ensures var end := Attempt(Plan(Cancelled, b, ceId), Start(s), fates).0.store;
            end.table != s.table || end.channels != s.channels ==>
              exists e :: e in end.accepted
                          && e.note == Notification(b.uid, "BOOKING_CANCELLED",
                                                    [Recipient(Participant(b, role).value.email, role)], None)
  {
    var notify := NotifyPlan(b, Trigger(Cancelled), false, ceId);
    var gone := DeleteChatPlan(b.uid, b.uid, false, ceId)
                + (DeleteUrlPlan(b, Organizer, ceId) + DeleteUrlPlan(b, Client, ceId));
    AttemptSplit(notify, gone, Start(s), fates);
    var (r, rest) := Attempt(notify, Start(s), fates);
    PublishingOnlyAdds(notify, Start(s), fates);
    AcceptedStay(gone, r, rest);
    if r.alive {
      var i := NotifyOne(b, role, Trigger(Cancelled), false, ceId)[0];
      assert i in notify;
      assert EventOf(i.ceId, i.step, i.draft, FRESH_REGS) in r.store.accepted;
    }
  }

  lemma {:induction false} AcceptedStay(plan: seq<Instr>, r: Run, fates: seq<Fate>)
    ensures forall e | e in r.store.accepted :: e in Attempt(plan, r, fates).0.store.accepted
    decreases plan
  {
    if plan != [] && r.alive {
      if Skips(plan[0], r.regs) {
        AcceptedStay(plan[1..], r, fates);
      } else {
        var fate := if fates == [] then Go(Fine) else fates[0];
        AcceptedStay(plan[1..], Fated(plan[0], r, fate), if fates == [] then [] else fates[1..]);
      }
    }
  }

  // ----- Setting up -----

  lemma Regrouped(p: seq<Instr>, q: seq<Instr>, t: seq<Instr>, n: seq<Instr>)
    ensures p + (q + (t + n)) == p + q + t + n
  {
  }

  lemma PlanIsSetupThenNotify(h: Handler, b: Booking, ceId: string)
    requires h.Created? || h.Rescheduled? || h.Reassigned?
    ensures Plan(h, b, ceId) == SetupPlan(h, b, ceId) + NotifyPlan(b, Trigger(h), true, ceId)
  {
    Regrouped(CleanupPlan(h, b, ceId), ChatPlan(b, ceId), LinksPlan(h, b, ceId), NotifyPlan(b, Trigger(h), true, ceId));
  }

  lemma UrlPlanIsQuiet(h: Handler, b: Booking, role: Role, ceId: string)
    ensures Quiet(UrlPlan(h, b, role, ceId)) && LeavesChannels(UrlPlan(h, b, role, ceId))
  {
  }

  lemma LinksAreQuiet(h: Handler, b: Booking, ceId: string)
    ensures Quiet(LinksPlan(h, b, ceId)) && LeavesChannels(LinksPlan(h, b, ceId))
  {
    UrlPlanIsQuiet(h, b, Organizer, ceId);
    UrlPlanIsQuiet(h, b, Client, ceId);
  }

  lemma SetupIsQuiet(h: Handler, b: Booking, ceId: string)
    ensures Quiet(SetupPlan(h, b, ceId))
  {
    LinksAreQuiet(h, b, ceId);
    assert Quiet(CleanupPlan(h, b, ceId)) && Quiet(ChatPlan(b, ceId));
  }

  // A channel once live is live after welcomes and whatever else is no deletion.
  lemma {:induction false} StaysLive(plan: seq<Instr>, r: Run, fates: seq<Fate>, uid: Uid)
    requires IsLive(r.store, uid) && forall i | i in plan :: !i.DeleteChannel?
    ensures IsLive(Attempt(plan, r, fates).0.store, uid)
    decreases plan
  {
    if plan != [] && r.alive {
      assert plan[0] in plan && forall i | i in plan[1..] :: i in plan;
      if Skips(plan[0], r.regs) {
        StaysLive(plan[1..], r, fates, uid);
      } else {
        var fate := if fates == [] then Go(Fine) else fates[0];
        StaysLive(plan[1..], Fated(plan[0], r, fate), if fates == [] then [] else fates[1..], uid);
      }
    }
  }

  lemma ChatIsLive(b: Booking, ceId: string, r: Run, fates: seq<Fate>)
    requires b.user.Some? && b.client.Some?
    ensures var end := Attempt(ChatPlan(b, ceId), r, fates).0; end.alive ==> IsLive(end.store, b.uid)
  {
    var plan := ChatPlan(b, ceId);
    assert plan == [plan[0]] + plan[1..];
    AttemptSplit([plan[0]], plan[1..], r, fates);
    var (r1, f1) := Attempt([plan[0]], r, fates);
    if r1.alive {
      StaysLive(plan[1..], r1, f1, b.uid);
    }
  }

  lemma VideoIsStored(b: Booking, r: Run, fates: seq<Fate>)
    requires b.client.Some?
    ensures var end := Attempt(VideoPlan(b), r, fates).0;
            end.alive ==> b.uid in end.store.video
                          && end.store.video[b.uid] == end.regs.UrlOf(PageFor(b, b.client.value, Client))
  {
    var fate := if fates == [] then Go(Fine) else fates[0];
    assert VideoPlan(b)[1..] == [];
    assert Attempt([], Fated(VideoPlan(b)[0], r, fate), if fates == [] then [] else fates[1..]).0
           == Fated(VideoPlan(b)[0], r, fate);
  }

  lemma DeadStays(plan: seq<Instr>, r: Run, fates: seq<Fate>)
    requires !r.alive
    ensures Attempt(plan, r, fates) == (r, fates)
  {
  }

  lemma SetupLeaves(h: Handler, b: Booking, ceId: string, r: Run, fates: seq<Fate>)
    ensures var end := Attempt(SetupPlan(h, b, ceId), r, fates).0;
            end.alive ==>
              && (b.user.Some? && b.client.Some? ==> IsLive(end.store, b.uid))
              && (b.client.Some? ==> b.uid in end.store.video
                                     && end.store.video[b.uid] == end.regs.UrlOf(PageFor(b, b.client.value, Client)))
  {
    var cleanup, chat, links := CleanupPlan(h, b, ceId), ChatPlan(b, ceId), LinksPlan(h, b, ceId);
    var urls := UrlPlan(h, b, Organizer, ceId) + UrlPlan(h, b, Client, ceId);
    AttemptSplit(cleanup + chat, links, r, fates);
    AttemptSplit(cleanup, chat, r, fates);
    var (r1, f1) := Attempt(cleanup, r, fates);
    var (r2, f2) := Attempt(chat, r1, f1);
    LinksAreQuiet(h, b, ceId);
    ChannelsStay(links, r2, f2);
    AttemptSplit(urls, VideoPlan(b), r2, f2);
    var (r3, f3) := Attempt(urls, r2, f2);
    if b.client.Some? {
      VideoIsStored(b, r3, f3);
    }
    if r2.alive {
      if b.user.Some? && b.client.Some? {
        ChatIsLive(b, ceId, r1, f1);
      }
    } else {
      DeadStays(links, r2, f2);
    }
  }

  // Main theorem. Whoever is notified of a set-up finds it done: the chat of both participants is live, the
  // client's URL is stored, and the URL the client was sent is that one.
  lemma SetUpBeforeNotified(h: Handler, b: Booking, ceId: string, s: Store, fates: seq<Fate>)
    requires h.Created? || h.Rescheduled? || h.Reassigned?
    ensures var end := Attempt(Plan(h, b, ceId), Start(s), fates).0.store;
            forall e | e in end.accepted && e !in s.accepted && e.note.Notification? ::
              && (b.user.Some? && b.client.Some? ==> IsLive(end, b.uid))
              && (b.client.Some? ==> b.uid in end.video)
              && (forall to | to in e.note.recipients && to.role == Client ::
                    b.client.Some? && to.email == b.client.value.email && e.note.link == Some(end.video[b.uid]))
  {
    var setup, notify := SetupPlan(h, b, ceId), NotifyPlan(b, Trigger(h), true, ceId);
    PlanIsSetupThenNotify(h, b, ceId);
    AttemptSplit(setup, notify, Start(s), fates);
    var (r, rest) := Attempt(setup, Start(s), fates);
    SetupIsQuiet(h, b, ceId);
    QuietAttempt(setup, Start(s), fates);
    SetupLeaves(h, b, ceId, Start(s), fates);
    PublishingOnlyAdds(notify, r, rest);
    if !r.alive {
      DeadStays(notify, r, rest);
    }
  }
}
