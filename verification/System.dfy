/** The whole service over time: deliveries in progress take their steps in any interleaving, crash,
    meet an unreliable shortener, and participants write in their chats. */
module System {
  import opened Wrappers
  import opened Domain
  import opened Machine
  import opened Handlers

  // A delivery in progress: the booking uid it is about, the steps ahead and its local variables.
  datatype Job = Job(uid: Uid, todo: seq<Instr>, regs: Regs)

  datatype Sys = Sys(store: Store, jobs: map<nat, Job>)

  datatype Action =
    | Begin(id: nat, h: Handler, b: Booking, ceId: string)
    | Advance(id: nat, luck: Luck)
    | Kill(id: nat)
    | Post(channel: Uid)

  function Without(y: Sys, id: nat): Sys { y.(jobs := y.jobs - {id}) }

  function Advanced(y: Sys, id: nat, luck: Luck): Sys
    requires id in y.jobs
  {
    var job := y.jobs[id];
    if job.todo == [] then Without(y, id)
    else if Skips(job.todo[0], job.regs) then y.(jobs := y.jobs[id := job.(todo := job.todo[1..])])
    else match Exec(job.todo[0], y.store, job.regs, luck)
      case Next(store, regs) => Sys(store, y.jobs[id := Job(job.uid, job.todo[1..], regs)])
      case Raised => Without(y, id)
  }

  // A participant writes in a chat, if there is one to write in.
  function Posted(s: Store, channel: Uid): Store {
    if IsLive(s, channel)
    then s.(channels := s.channels[channel := Live(s.channels[channel].messages + [Chatter])])
    else s
  }

  function Step(y: Sys, a: Action): Sys {
    match a
    case Begin(id, h, b, ceId) =>
      if id in y.jobs then y else y.(jobs := y.jobs[id := Job(b.uid, Plan(h, b, ceId), FRESH_REGS)])
    case Advance(id, luck) => if id in y.jobs then Advanced(y, id, luck) else y
    case Kill(id) => Without(y, id)
    case Post(channel) => y.(store := Posted(y.store, channel))
  }

  function Trace(y: Sys, actions: seq<Action>): Sys
    decreases actions
  {
    if actions == [] then y else Trace(Step(y, actions[0]), actions[1..])
  }

  lemma {:induction false} TraceSplit(y: Sys, first: seq<Action>, second: seq<Action>)
    ensures Trace(y, first + second) == Trace(Trace(y, first), second)
    decreases first
  {
    if first == [] {
      assert first + second == second;
    } else {
      assert (first + second)[1..] == first[1..] + second;
      TraceSplit(Step(y, first[0]), first[1..], second);
    }
  }

  // Every attempt of the step-by-step semantics is a run of the system with that one delivery.
  lemma {:induction false} AttemptIsTrace(y: Sys, id: nat, uid: Uid, plan: seq<Instr>, regs: Regs, fates: seq<Fate>)
    returns (actions: seq<Action>)
    requires id in y.jobs && y.jobs[id] == Job(uid, plan, regs)
    ensures forall a | a in actions :: a.Advance? || a.Kill?
    ensures Trace(y, actions) == Sys(Attempt(plan, Run(y.store, regs, true), fates).0.store, y.jobs - {id})
    decreases plan
  {
    var r := Run(y.store, regs, true);
    if plan == [] || (!Skips(plan[0], regs) && fates != [] && fates[0] == Crash) {
      actions := [Kill(id)];
      assert Trace(y, actions) == Trace(Step(y, Kill(id)), []);
    } else {
      var skip := Skips(plan[0], regs);
      var fate := if fates == [] then Go(Fine) else fates[0];
      var luck := if skip then Fine else fate.luck;
      var y' := Step(y, Advance(id, luck));
      var r' := if skip then r else Fated(plan[0], r, fate);
      var rest := if skip || fates == [] then fates else fates[1..];
      assert Attempt(plan, r, fates).0.store == Attempt(plan[1..], r', rest).0.store;
      if r'.alive {
        assert y'.jobs - {id} == y.jobs - {id};
        actions := AttemptIsTrace(y', id, uid, plan[1..], r'.regs, rest);
        actions := [Advance(id, luck)] + actions;
        assert actions[1..] == actions[1..];
      } else {
        actions := [Advance(id, luck)];
        assert Trace(y, actions) == Trace(y', []);
      }
    }
  }
}
