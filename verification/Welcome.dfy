/** The two welcome messages: no run ever sends them twice or out of order. */
module Welcome {
  import opened Wrappers
  import opened Domain
  import opened Machine
  import opened Handlers
  import opened System

  // The service's own messages in a channel.
  function Service(messages: seq<Message>): seq<Message> {
    if messages == [] then []
    else (if messages[0] == Chatter then [] else [messages[0]]) + Service(messages[1..])
  }

  lemma {:induction false} ServiceAppend(messages: seq<Message>, m: Message)
    ensures Service(messages + [m]) == Service(messages) + if m == Chatter then [] else [m]
  {
    if messages == [] {
      assert [m][1..] == [];
    } else {
      assert (messages + [m])[1..] == messages[1..] + [m];
      ServiceAppend(messages[1..], m);
      AssociateMessages(if messages[0] == Chatter then [] else [messages[0]], Service(messages[1..]),
                        if m == Chatter then [] else [m]);
    }
  }

  lemma AssociateMessages(a: seq<Message>, b: seq<Message>, c: seq<Message>)
    ensures a + (b + c) == a + b + c
  {
  }

  predicate WelcomePrefix(s: seq<Message>) { s <= [Welcome1, Welcome2] }

  // ----- Safety over all runs -----

  // The first message is sent right after looking for messages, the second right after the first;
  // a delivery creates, reads and recreates the chat of its own uid only.
  predicate InPlace(uid: Uid, before: Option<Instr>, i: Instr) {
    match i
    case SendWelcome(u, m) =>
      u == uid && (before == Some(if m == Welcome1 then QueryMessages(uid) else SendWelcome(uid, Welcome1)))
      && m != Chatter
    case QueryMessages(u) => u == uid
    case CreateChannel(u) => u == uid
    case DeleteChannel(u, hard) => hard ==> u == uid
    case _ => true
  }

  function Before(todo: seq<Instr>, k: nat): Option<Instr>
    requires k < |todo|
  {
    if k == 0 then None else Some(todo[k - 1])
  }

  predicate WellPlaced(uid: Uid, plan: seq<Instr>) {
    forall k :: 0 <= k < |plan| ==> InPlace(uid, Before(plan, k), plan[k])
  }

  // The head of what is left of a plan has lost its predecessor.
  ghost predicate TailPlaced(uid: Uid, todo: seq<Instr>) {
    && (todo != [] ==> exists before :: InPlace(uid, before, todo[0]))
    && (forall k :: 1 <= k < |todo| ==> InPlace(uid, Some(todo[k - 1]), todo[k]))
  }

  // When about to send a message, the delivery finds the service's messages as it expects them.
  predicate ReadyToSend(s: Store, job: Job) {
    job.todo != [] && job.todo[0].SendWelcome? && !job.regs.hasMessages && IsLive(s, job.uid) ==>
      Service(s.channels[job.uid].messages) == if job.todo[0].message == Welcome1 then [] else [Welcome1]
  }

  ghost predicate WelcomeInv(y: Sys) {
    && (forall u | IsLive(y.store, u) :: WelcomePrefix(Service(y.store.channels[u].messages)))
    && (forall id | id in y.jobs :: TailPlaced(y.jobs[id].uid, y.jobs[id].todo) && ReadyToSend(y.store, y.jobs[id]))
    && (forall id, id2 | id in y.jobs && id2 in y.jobs && id != id2 :: y.jobs[id].uid != y.jobs[id2].uid)
  }

  // One uid's deliveries are handled one at a time.
  predicate OneAtATime(y: Sys, a: Action) {
    a.Begin? ==> forall id | id in y.jobs :: y.jobs[id].uid != a.b.uid
  }

  ghost predicate ValidRun(y: Sys, actions: seq<Action>)
    decreases actions
  {
    actions != [] ==> OneAtATime(y, actions[0]) && ValidRun(Step(y, actions[0]), actions[1..])
  }

  lemma WellPlacedConcat(uid: Uid, p: seq<Instr>, q: seq<Instr>)
    requires WellPlaced(uid, p) && WellPlaced(uid, q)
    ensures WellPlaced(uid, p + q)
  {
    forall k | 0 <= k < |p + q| ensures InPlace(uid, Before(p + q, k), (p + q)[k]) {
      if k < |p| {
        assert InPlace(uid, Before(p, k), p[k]);
      } else {
        assert InPlace(uid, Before(q, k - |p|), q[k - |p|]);
      }
    }
  }

  predicate ChatFree(plan: seq<Instr>) {
    forall i | i in plan :: !i.SendWelcome? && !i.QueryMessages? && !i.CreateChannel? && !i.DeleteChannel?
  }

  lemma ChatFreeIsWellPlaced(uid: Uid, plan: seq<Instr>)
    requires ChatFree(plan)
    ensures WellPlaced(uid, plan)
  {
    forall k | 0 <= k < |plan| ensures InPlace(uid, Before(plan, k), plan[k]) {
      assert plan[k] in plan;
    }
  }

  lemma NotifyIsChatFree(b: Booking, trigger: string, withUrl: bool, ceId: string)
    ensures ChatFree(NotifyPlan(b, trigger, withUrl, ceId))
  {
  }

  lemma LinksAreChatFree(h: Handler, b: Booking, ceId: string)
    ensures ChatFree(LinksPlan(h, b, ceId))
  {
    assert ChatFree(UrlPlan(h, b, Organizer, ceId)) && ChatFree(UrlPlan(h, b, Client, ceId)) && ChatFree(VideoPlan(b));
  }

  lemma PlanIsWellPlaced(h: Handler, b: Booking, ceId: string)
    ensures WellPlaced(b.uid, Plan(h, b, ceId))
  {
    match h
    case Rejected(trigger, reason) => assert ChatFree(RejectPlan(b, trigger, reason, ceId));
      ChatFreeIsWellPlaced(b.uid, Plan(h, b, ceId));
    case Cancelled =>
      var notify, chat := NotifyPlan(b, Trigger(h), false, ceId), DeleteChatPlan(b.uid, b.uid, false, ceId);
      var urls := DeleteUrlPlan(b, Organizer, ceId) + DeleteUrlPlan(b, Client, ceId);
      NotifyIsChatFree(b, Trigger(h), false, ceId);
      ChatFreeIsWellPlaced(b.uid, notify);
      assert ChatFree(urls);
      ChatFreeIsWellPlaced(b.uid, urls);
      WellPlacedConcat(b.uid, chat, urls);
      WellPlacedConcat(b.uid, notify, chat + urls);
    case _ =>
      var cleanup, chat := CleanupPlan(h, b, ceId), ChatPlan(b, ceId);
      var links, notify := LinksPlan(h, b, ceId), NotifyPlan(b, Trigger(h), true, ceId);
      NotifyIsChatFree(b, Trigger(h), true, ceId);
      LinksAreChatFree(h, b, ceId);
      ChatFreeIsWellPlaced(b.uid, links + notify);
      CleanupAndChatArePlaced(h, b, ceId);
      WellPlacedConcat(b.uid, chat, links + notify);
      WellPlacedConcat(b.uid, cleanup, chat + (links + notify));
  }

  lemma CleanupAndChatArePlaced(h: Handler, b: Booking, ceId: string)
    ensures WellPlaced(b.uid, CleanupPlan(h, b, ceId)) && WellPlaced(b.uid, ChatPlan(b, ceId))
  {
  }

  lemma TailOfTail(uid: Uid, todo: seq<Instr>)
    requires TailPlaced(uid, todo) && todo != []
    ensures TailPlaced(uid, todo[1..])
    ensures todo[1..] != [] ==> InPlace(uid, Some(todo[0]), todo[1])
  {
    if |todo| > 1 {
      assert todo[1..][0] == todo[1];
      assert InPlace(uid, Some(todo[0]), todo[1..][0]);
    }
    forall k | 1 <= k < |todo[1..]| ensures InPlace(uid, Some(todo[1..][k - 1]), todo[1..][k]) {
      assert InPlace(uid, Some(todo[k]), todo[k + 1]);
    }
  }

  // What a delivery's step does to channels: nothing it could spoil for others.
  lemma ExecOnChannels(i: Instr, uid: Uid, s: Store, regs: Regs, luck: Luck)
    requires exists before :: InPlace(uid, before, i)
    requires Exec(i, s, regs, luck).Next?
    ensures var s' := Exec(i, s, regs, luck).store;
            forall u | u != uid && IsLive(s', u) :: IsLive(s, u) && s'.channels[u] == s.channels[u]
  {
  }

  // A message is sent in its turn, and the one after it comes next.
  lemma SentInTurn(s: Store, job: Job, luck: Luck)
    requires job.todo != [] && job.todo[0].SendWelcome? && TailPlaced(job.uid, job.todo) && ReadyToSend(s, job)
    requires !job.regs.hasMessages && Exec(job.todo[0], s, job.regs, luck).Next?
    ensures var out := Exec(job.todo[0], s, job.regs, luck);
            && (IsLive(out.store, job.uid) ==> WelcomePrefix(Service(out.store.channels[job.uid].messages)))
            && ReadyToSend(out.store, Job(job.uid, job.todo[1..], out.regs))
  {
    TailOfTail(job.uid, job.todo);
    ServiceAppend(s.channels[job.uid].messages, job.todo[0].message);
  }

  lemma OwnChannel(s: Store, job: Job, luck: Luck)
    requires job.todo != [] && TailPlaced(job.uid, job.todo) && ReadyToSend(s, job) && !Skips(job.todo[0], job.regs)
    requires IsLive(s, job.uid) ==> WelcomePrefix(Service(s.channels[job.uid].messages))
    requires Exec(job.todo[0], s, job.regs, luck).Next?
    ensures var out := Exec(job.todo[0], s, job.regs, luck);
            && (IsLive(out.store, job.uid) ==> WelcomePrefix(Service(out.store.channels[job.uid].messages)))
            && ReadyToSend(out.store, Job(job.uid, job.todo[1..], out.regs))
  {
    TailOfTail(job.uid, job.todo);
    var i := job.todo[0];
    if i.SendWelcome? {
      SentInTurn(s, job, luck);
    }
  }

  lemma WellPlacedIsTail(uid: Uid, plan: seq<Instr>)
    requires WellPlaced(uid, plan)
    ensures TailPlaced(uid, plan) && (plan != [] ==> !plan[0].SendWelcome?)
  {
    if plan != [] {
      assert InPlace(uid, Before(plan, 0), plan[0]);
    }
    assert forall k :: 1 <= k < |plan| ==> Before(plan, k) == Some(plan[k - 1]);
  }

  lemma NewJobKeepsWelcome(y: Sys, id: nat, uid: Uid, plan: seq<Instr>)
    requires WelcomeInv(y) && id !in y.jobs && forall other | other in y.jobs :: y.jobs[other].uid != uid
    requires WellPlaced(uid, plan)
    ensures WelcomeInv(y.(jobs := y.jobs[id := Job(uid, plan, FRESH_REGS)]))
  {
    WellPlacedIsTail(uid, plan);
  }

  lemma BeginKeepsWelcome(y: Sys, id: nat, h: Handler, b: Booking, ceId: string)
    requires WelcomeInv(y) && OneAtATime(y, Begin(id, h, b, ceId))
    ensures WelcomeInv(Step(y, Begin(id, h, b, ceId)))
  {
    if id !in y.jobs {
      PlanIsWellPlaced(h, b, ceId);
      NewJobKeepsWelcome(y, id, b.uid, Plan(h, b, ceId));
    }
  }

  lemma PostKeepsWelcome(y: Sys, channel: Uid)
    requires WelcomeInv(y)
    ensures WelcomeInv(Step(y, Post(channel)))
  {
    if IsLive(y.store, channel) {
      ServiceAppend(y.store.channels[channel].messages, Chatter);
    }
  }

  lemma StepKeepsWelcome(y: Sys, a: Action)
    requires WelcomeInv(y) && OneAtATime(y, a)
    ensures WelcomeInv(Step(y, a))
  {
    match a
    case Begin(id, h, b, ceId) => BeginKeepsWelcome(y, id, h, b, ceId);
    case Advance(id, luck) =>
      if id in y.jobs {
        AdvanceKeepsWelcome(y, id, luck);
      }
    case Kill(id) =>
    case Post(channel) => PostKeepsWelcome(y, channel);
  }

  lemma AdvanceKeepsWelcome(y: Sys, id: nat, luck: Luck)
    requires WelcomeInv(y) && id in y.jobs
    ensures WelcomeInv(Advanced(y, id, luck))
  {
    var job, y' := y.jobs[id], Advanced(y, id, luck);
    if job.todo != [] {
      TailOfTail(job.uid, job.todo);
      if !Skips(job.todo[0], job.regs) && Exec(job.todo[0], y.store, job.regs, luck).Next? {
        ExecOnChannels(job.todo[0], job.uid, y.store, job.regs, luck);
        OwnChannel(y.store, job, luck);
        forall other | other in y'.jobs ensures ReadyToSend(y'.store, y'.jobs[other]) {
          if other != id {
            assert y.jobs[other].uid != job.uid && ReadyToSend(y.store, y.jobs[other]);
          }
        }
      }
    }
  }

  // Main theorem: in every channel the service's messages are a prefix of the two welcomes.
  lemma {:induction false} WelcomesNeverRepeat(y: Sys, actions: seq<Action>)
    requires WelcomeInv(y) && ValidRun(y, actions)
    ensures WelcomeInv(Trace(y, actions))
    decreases actions
  {
    if actions != [] {
      StepKeepsWelcome(y, actions[0]);
      WelcomesNeverRepeat(Step(y, actions[0]), actions[1..]);
    }
  }
}
