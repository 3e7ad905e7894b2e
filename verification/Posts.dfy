/** Attempts during which participants write in the booking's chat, at any time. */
module Posts {
  import opened Wrappers
  import opened Domain
  import opened Machine
  import opened Handlers
  import opened System

  // A step meets its fate, or somebody writes before the next one.
  datatype Beat = Meet(fate: Fate) | Says

  function Fates(beats: seq<Beat>): seq<Fate> {
    if beats == [] then []
    else (if beats[0].Meet? then [beats[0].fate] else []) + Fates(beats[1..])
  }

  // An attempt with posts in between; those after its end land all the same.
  function Amid(plan: seq<Instr>, uid: Uid, r: Run, beats: seq<Beat>): Run
    decreases |plan| + |beats|
  {
    if beats != [] && beats[0].Says? then Amid(plan, uid, r.(store := Posted(r.store, uid)), beats[1..])
    else if plan == [] || !r.alive then if beats == [] then r else Amid(plan, uid, r, beats[1..])
    else if Skips(plan[0], r.regs) then Amid(plan[1..], uid, r, beats)
    else if beats == [] then Amid(plan[1..], uid, Fated(plan[0], r, Go(Fine)), [])
    else Amid(plan[1..], uid, Fated(plan[0], r, beats[0].fate), beats[1..])
  }

  // The store after attempts at one delivery, each starting over.
  function Deliveries(plan: seq<Instr>, uid: Uid, s: Store, tries: seq<seq<Beat>>): Store
    decreases tries
  {
    if tries == [] then s else Deliveries(plan, uid, Amid(plan, uid, Start(s), tries[0]).store, tries[1..])
  }

  function Meets(fates: seq<Fate>): seq<Beat> {
    seq(|fates|, i requires 0 <= i < |fates| => Meet(fates[i]))
  }

  // Without posts it is an attempt.
  lemma {:induction false} WithoutPosts(plan: seq<Instr>, uid: Uid, r: Run, fates: seq<Fate>)
    ensures Amid(plan, uid, r, Meets(fates)) == Attempt(plan, r, fates).0
    decreases |plan| + |fates|
  {
    if fates != [] {
      assert Meets(fates)[1..] == Meets(fates[1..]);
    }
    if plan == [] || !r.alive {
      if fates != [] {
        WithoutPosts(plan, uid, r, fates[1..]);
      }
    } else if Skips(plan[0], r.regs) {
      WithoutPosts(plan[1..], uid, r, fates);
    } else if fates == [] {
      WithoutPosts(plan[1..], uid, Fated(plan[0], r, Go(Fine)), []);
    } else {
      WithoutPosts(plan[1..], uid, Fated(plan[0], r, fates[0]), fates[1..]);
    }
  }

  // What is left of an attempt that has ended is posts.
  lemma {:induction false} PostsAreTrace(y: Sys, plan: seq<Instr>, uid: Uid, r: Run, beats: seq<Beat>)
    returns (actions: seq<Action>)
    requires r.store == y.store && (plan == [] || !r.alive)
    ensures forall a | a in actions :: a == Post(uid)
    ensures Trace(y, actions) == y.(store := Amid(plan, uid, r, beats).store)
    decreases beats
  {
    actions := [];
    if beats != [] {
      if beats[0].Says? {
        var y' := Step(y, Post(uid));
        var rest := PostsAreTrace(y', plan, uid, r.(store := y'.store), beats[1..]);
        actions := [Post(uid)] + rest;
        assert actions[1..] == rest;
      } else {
        actions := PostsAreTrace(y, plan, uid, r, beats[1..]);
      }
    }
  }

  // Every attempt amid posts is a run of the system with that one delivery.
  lemma {:induction false} AmidIsTrace(y: Sys, id: nat, uid: Uid, plan: seq<Instr>, regs: Regs, beats: seq<Beat>)
    returns (actions: seq<Action>)
    requires id in y.jobs && y.jobs[id] == Job(uid, plan, regs)
    ensures forall a | a in actions :: a.Advance? || a.Kill? || a == Post(uid)
    ensures Trace(y, actions) == Sys(Amid(plan, uid, Run(y.store, regs, true), beats).store, y.jobs - {id})
    decreases |plan| + |beats|
  {
    var r := Run(y.store, regs, true);
    var first: Action;
    var rest: seq<Action>;
    if beats != [] && beats[0].Says? {
      first := Post(uid);
      rest := AmidIsTrace(Step(y, first), id, uid, plan, regs, beats[1..]);
    } else if plan == [] || (!Skips(plan[0], regs) && beats != [] && beats[0].fate == Crash) {
      first := Kill(id);
      rest := PostsAreTrace(Step(y, first), plan, uid, r.(alive := false), beats);
      EndedAlike(plan, uid, r, beats);
    } else {
      var skip := Skips(plan[0], regs);
      var luck := if skip || beats == [] then Fine else beats[0].fate.luck;
      var left := if skip || beats == [] then beats else beats[1..];
      var next := if skip then r else Fated(plan[0], r, Go(luck));
      first := Advance(id, luck);
      var y' := Step(y, first);
      assert Amid(plan, uid, r, beats) == Amid(plan[1..], uid, next, left);
      if next.alive {
        assert y'.jobs - {id} == y.jobs - {id};
        rest := AmidIsTrace(y', id, uid, plan[1..], next.regs, left);
      } else {
        rest := PostsAreTrace(y', plan[1..], uid, next, left);
      }
    }
    actions := [first] + rest;
    assert actions[1..] == rest;
  }

  // A crash and the end of the plan leave the same to come.
  lemma EndedAlike(plan: seq<Instr>, uid: Uid, r: Run, beats: seq<Beat>)
    requires r.alive && (beats != [] ==> beats[0].Meet?)
    requires plan == [] || (!Skips(plan[0], r.regs) && beats != [] && beats[0].fate == Crash)
    ensures Amid(plan, uid, r, beats).store == Amid(plan, uid, r.(alive := false), beats).store
  {
    if plan == [] {
      AliveOrNot([], uid, r, beats);
    } else {
      PlanPlaysNoPart(plan, plan[1..], uid, r.(alive := false), beats[1..]);
    }
  }

  lemma {:induction false} AliveOrNot(plan: seq<Instr>, uid: Uid, r: Run, beats: seq<Beat>)
    requires plan == []
    ensures Amid(plan, uid, r, beats).store == Amid(plan, uid, r.(alive := false), beats).store
    decreases beats
  {
    if beats != [] {
      AliveOrNot(plan, uid, if beats[0].Says? then r.(store := Posted(r.store, uid)) else r, beats[1..]);
    }
  }

  lemma {:induction false} PlanPlaysNoPart(plan: seq<Instr>, plan2: seq<Instr>, uid: Uid, r: Run, beats: seq<Beat>)
    requires !r.alive
    ensures Amid(plan, uid, r, beats) == Amid(plan2, uid, r, beats)
    decreases beats
  {
    if beats != [] {
      PlanPlaysNoPart(plan, plan2, uid, if beats[0].Says? then r.(store := Posted(r.store, uid)) else r, beats[1..]);
    }
  }
}
