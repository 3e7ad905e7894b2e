/** Which of the two welcome messages a chat ends up with, for every way its deliveries may crash and
    for everything participants write meanwhile. */
module WelcomeOutcome {
  import opened Wrappers
  import opened Domain
  import opened Machine
  import opened Handlers
  import opened Convergence
  import opened System
  import opened Welcome
  import opened Posts

  const BOTH_WELCOMES := [Welcome1, Welcome2]

  // ----- Fates and posts -----

  // No crash among the first n steps.
  predicate Survives(fates: seq<Fate>, n: int) {
    forall i :: 0 <= i < n && i < |fates| ==> fates[i] != Crash
  }

  // The first n steps were taken.
  predicate Passed(beats: seq<Beat>, n: int) {
    n <= |Fates(beats)| && Survives(Fates(beats), n)
  }

  predicate Writes(beats: seq<Beat>) { exists j :: 0 <= j < |beats| && beats[j].Says? }

  // A post at beat j finds the chat live: it was live before, or the step that creates it was taken.
  predicate Heard(create: int, live: bool, beats: seq<Beat>, j: nat)
    requires j < |beats|
  {
    beats[j].Says? && (live || Passed(beats[..j], create + 1))
  }

  // Somebody writes in the live chat before the attempt asks for messages, two steps after creating
  // it; or at any time, if the attempt never gets to send its first message.
  predicate WroteFirst(create: int, live: bool, beats: seq<Beat>) {
    exists j :: 0 <= j < |beats| && Heard(create, live, beats, j)
      && (Survives(Fates(beats), create + 4) ==> |Fates(beats[..j])| < create + 3)
  }

  lemma FatesOfRest(beats: seq<Beat>, j: nat)
    requires 0 < j <= |beats|
    ensures Fates(beats[..j]) == (if beats[0].Meet? then [beats[0].fate] else []) + Fates(beats[1..][..j - 1])
  {
    assert beats[..j][1..] == beats[1..][..j - 1];
  }

  lemma SurvivesCons(fate: Fate, fates: seq<Fate>, n: int)
    ensures Survives([fate] + fates, n) <==> n <= 0 || (fate != Crash && Survives(fates, n - 1))
  {
    var all := [fate] + fates;
    if n > 0 && fate != Crash && Survives(fates, n - 1) {
      forall i | 0 <= i < n && i < |all| ensures all[i] != Crash {
        assert i > 0 ==> all[i] == fates[i - 1];
      }
    }
    if n > 0 && Survives(all, n) {
      assert all[0] == fate;
      forall i | 0 <= i < n - 1 && i < |fates| ensures fates[i] != Crash {
        assert fates[i] == all[i + 1];
      }
    }
  }

  // What the first beat does to the posts that follow it.
  lemma HeardLater(create: int, live: bool, beats: seq<Beat>, j: nat)
    requires 0 < j < |beats|
    ensures beats[0].Says? ==> (Heard(create, live, beats, j) <==> Heard(create, live, beats[1..], j - 1))
    ensures beats[0].Meet? && beats[0].fate != Crash ==>
              (Heard(create, live, beats, j) <==> Heard(create - 1, live, beats[1..], j - 1))
    ensures beats[0] == Meet(Crash) ==> (Heard(create, live, beats, j) <==> beats[j].Says? && (live || create < 0))
  {
    FatesOfRest(beats, j);
    var rest := Fates(beats[1..][..j - 1]);
    if beats[0].Meet? {
      SurvivesCons(beats[0].fate, rest, create + 1);
    } else {
      assert [] + rest == rest;
    }
  }

  lemma WroteCons(create: int, live: bool, beats: seq<Beat>, j: nat)
    requires 0 < j < |beats|
    ensures |Fates(beats[..j])| == |Fates(beats[1..][..j - 1])| + if beats[0].Meet? then 1 else 0
  {
    FatesOfRest(beats, j);
  }

  lemma WroteAfterSays(create: int, live: bool, beats: seq<Beat>)
    requires beats != [] && beats[0].Says?
    ensures WroteFirst(create, live, beats) <==>
            ((live || create < 0) && (Survives(Fates(beats[1..]), create + 4) ==> -3 < create))
            || WroteFirst(create, live, beats[1..])
  {
    var rest := beats[1..];
    assert Fates(beats) == [] + Fates(rest) == Fates(rest);
    assert Heard(create, live, beats, 0) <==> live || create < 0 by {
      assert beats[..0] == [] && Fates(beats[..0]) == [];
    }
    forall j | 0 < j < |beats|
      ensures Heard(create, live, beats, j) <==> Heard(create, live, rest, j - 1)
      ensures |Fates(beats[..j])| == |Fates(rest[..j - 1])|
    {
      HeardLater(create, live, beats, j);
      WroteCons(create, live, beats, j);
    }
    if WroteFirst(create, live, rest) {
      var j :| 0 <= j < |rest| && Heard(create, live, rest, j)
        && (Survives(Fates(rest), create + 4) ==> |Fates(rest[..j])| < create + 3);
      assert Heard(create, live, beats, j + 1);
    }
  }

  lemma WroteAfterGo(create: int, live: bool, beats: seq<Beat>)
    requires beats != [] && beats[0].Meet? && beats[0].fate != Crash
    ensures WroteFirst(create, live, beats) <==> WroteFirst(create - 1, live, beats[1..])
  {
    var rest := beats[1..];
    SurvivesCons(beats[0].fate, Fates(rest), create + 4);
    assert Survives(Fates(rest), create + 3) <== create + 3 <= 0;
    forall j | 0 < j < |beats|
      ensures Heard(create, live, beats, j) <==> Heard(create - 1, live, rest, j - 1)
      ensures |Fates(beats[..j])| == |Fates(rest[..j - 1])| + 1
    {
      HeardLater(create, live, beats, j);
      WroteCons(create, live, beats, j);
    }
    if WroteFirst(create - 1, live, rest) {
      var j :| 0 <= j < |rest| && Heard(create - 1, live, rest, j)
        && (Survives(Fates(rest), create + 3) ==> |Fates(rest[..j])| < create + 2);
      assert Heard(create, live, beats, j + 1);
    }
  }

  lemma WroteAfterCrash(create: int, live: bool, beats: seq<Beat>)
    requires beats != [] && beats[0] == Meet(Crash) && create + 4 > 0
    ensures WroteFirst(create, live, beats) <==> (live || create < 0) && Writes(beats[1..])
  {
    var rest := beats[1..];
    SurvivesCons(Crash, Fates(rest), create + 4);
    forall j | 0 < j < |beats|
      ensures Heard(create, live, beats, j) <==> beats[j].Says? && (live || create < 0)
    {
      HeardLater(create, live, beats, j);
    }
    if (live || create < 0) && Writes(rest) {
      var j :| 0 <= j < |rest| && rest[j].Says?;
      assert Heard(create, live, beats, j + 1);
    }
  }

  // ----- The steps ahead, seen from the one that creates the channel -----

  // Steps that leave the channel alone: those around its creation, and those behind the welcomes.
  predicate Aside(i: Instr, uid: Uid) { i.Publish? || (i.DeleteChannel? && i.uid != uid) }

  predicate LeavesAlone(i: Instr, uid: Uid) { Aside(i, uid) || i.MoveLink? || i.CreateLink? || i.StoreVideo? }

  // The step d steps after the creation.
  predicate At(i: Instr, uid: Uid, d: int) {
    if d == 0 then i == CreateChannel(uid)
    else if d == 2 then i == QueryMessages(uid)
    else if d == 3 then i == SendWelcome(uid, Welcome1)
    else if d == 4 then i == SendWelcome(uid, Welcome2)
    else if d >= 5 then LeavesAlone(i, uid)
    else Aside(i, uid)
  }

  // The creation is the step with number create; negative when it is past.
  ghost predicate Ahead(todo: seq<Instr>, uid: Uid, create: int) {
    create + 5 <= |todo| && forall k :: 0 <= k < |todo| ==> At(todo[k], uid, k - create)
  }

  lemma AheadRest(todo: seq<Instr>, uid: Uid, create: int)
    requires Ahead(todo, uid, create) && todo != []
    ensures Ahead(todo[1..], uid, create - 1) && At(todo[0], uid, -create)
  {
    assert At(todo[0], uid, 0 - create);
    forall k | 0 <= k < |todo[1..]| ensures At(todo[1..][k], uid, k - (create - 1)) {
      assert At(todo[k + 1], uid, k + 1 - create);
    }
  }

  function ChannelOf(s: Store, uid: Uid): Option<Channel> {
    if uid in s.channels then Some(s.channels[uid]) else None
  }

  lemma LeavesAloneStep(i: Instr, uid: Uid, r: Run, luck: Luck)
    requires LeavesAlone(i, uid) && r.alive
    ensures var r' := Fated(i, r, Go(luck));
            r'.alive && r'.regs.hasMessages == r.regs.hasMessages && ChannelOf(r'.store, uid) == ChannelOf(r.store, uid)
  {
  }

  // The channel has no messages to find, so far.
  predicate Blank(s: Store, uid: Uid) { ChannelOf(s, uid).None? || ChannelOf(s, uid) == Some(Live([])) }

  // The channel has messages, these among them from the service.
  predicate Talked(s: Store, uid: Uid, service: seq<Message>) {
    IsLive(s, uid) && s.channels[uid].messages != [] && Service(s.channels[uid].messages) == service
  }

  lemma PostedTalk(s: Store, uid: Uid)
    requires IsLive(s, uid)
    ensures Talked(Posted(s, uid), uid, Service(s.channels[uid].messages))
  {
    ServiceAppend(s.channels[uid].messages, Chatter);
  }

  lemma Sent(s: Store, regs: Regs, uid: Uid, m: Message, luck: Luck)
    requires IsLive(s, uid) && m != Chatter
    ensures var r' := Fated(SendWelcome(uid, m), Run(s, regs, true), Go(luck));
            r'.alive && r'.regs == regs && Talked(r'.store, uid, Service(s.channels[uid].messages) + [m])
  {
    ServiceAppend(s.channels[uid].messages, m);
  }

  // ----- What an attempt amid posts leaves of the channel -----

  // One step into the beats: what the attempt does next, and with what.
  function Next(todo: seq<Instr>, r: Run, beats: seq<Beat>): (Run, seq<Beat>)
    requires todo != [] && (beats != [] ==> beats[0].Meet?)
  {
    if Skips(todo[0], r.regs) then (r, beats)
    else if beats == [] then (Fated(todo[0], r, Go(Fine)), [])
    else (Fated(todo[0], r, beats[0].fate), beats[1..])
  }

  lemma AmidNext(todo: seq<Instr>, uid: Uid, r: Run, beats: seq<Beat>)
    requires todo != [] && r.alive && (beats != [] ==> beats[0].Meet?)
    ensures Amid(todo, uid, r, beats) == (var (r', rest) := Next(todo, r, beats); Amid(todo[1..], uid, r', rest))
  {
  }

  // Once the channel has messages, an attempt that still has to ask, or has asked, sends none.
  lemma {:induction false} AmidTalk(todo: seq<Instr>, uid: Uid, create: int, r: Run, beats: seq<Beat>,
                                    service: seq<Message>)
    requires Ahead(todo, uid, create) && Talked(r.store, uid, service)
    requires r.alive ==> -2 <= create || r.regs.hasMessages || create <= -5
    ensures Talked(Amid(todo, uid, r, beats).store, uid, service)
    decreases |todo| + |beats|
  {
    if beats != [] && beats[0].Says? {
      PostedTalk(r.store, uid);
      AmidTalk(todo, uid, create, r.(store := Posted(r.store, uid)), beats[1..], service);
    } else if todo == [] || !r.alive {
      if beats != [] {
        AmidTalk(todo, uid, create, r, beats[1..], service);
      }
    } else {
      AmidNext(todo, uid, r, beats);
      AheadRest(todo, uid, create);
      TalkStep(todo[0], uid, create, r, beats, service);
      var (r', rest) := Next(todo, r, beats);
      AmidTalk(todo[1..], uid, create - 1, r', rest, service);
    }
  }

  lemma TalkStep(i: Instr, uid: Uid, create: int, r: Run, beats: seq<Beat>, service: seq<Message>)
    requires r.alive && At(i, uid, -create) && Talked(r.store, uid, service) && (beats != [] ==> beats[0].Meet?)
    requires -2 <= create || r.regs.hasMessages || create <= -5
    ensures var (r', _) := Next([i], r, beats);
            && Talked(r'.store, uid, service)
            && (r'.alive ==> -2 <= create - 1 || r'.regs.hasMessages || create - 1 <= -5)
  {
    if !Skips(i, r.regs) && (beats == [] || beats[0].fate != Crash) {
      var luck := if beats == [] then Fine else beats[0].fate.luck;
      if LeavesAlone(i, uid) {
        LeavesAloneStep(i, uid, r, luck);
      }
    }
  }

  lemma WritesCons(beats: seq<Beat>)
    requires beats != []
    ensures Writes(beats) <==> beats[0].Says? || Writes(beats[1..])
  {
    if Writes(beats) {
      var j :| 0 <= j < |beats| && beats[j].Says?;
      assert j > 0 ==> beats[1..][j - 1].Says?;
    }
    if Writes(beats[1..]) {
      var j :| 0 <= j < |beats[1..]| && beats[1..][j].Says?;
      assert beats[j + 1].Says?;
    }
  }

  // After a crash only posts land.
  lemma {:induction false} AmidDead(todo: seq<Instr>, uid: Uid, r: Run, beats: seq<Beat>)
    requires !r.alive
    ensures var end := Amid(todo, uid, r, beats);
            && !end.alive
            && (!IsLive(r.store, uid) ==> ChannelOf(end.store, uid) == ChannelOf(r.store, uid))
            && (IsLive(r.store, uid) ==>
                  IsLive(end.store, uid)
                  && Service(end.store.channels[uid].messages) == Service(r.store.channels[uid].messages)
                  && (end.store.channels[uid].messages == [] <==> r.store.channels[uid].messages == [] && !Writes(beats)))
    decreases beats
  {
    if beats != [] {
      WritesCons(beats);
      var next := if beats[0].Says? then r.(store := Posted(r.store, uid)) else r;
      if IsLive(r.store, uid) {
        PostedTalk(r.store, uid);
      }
      AmidDead(todo, uid, next, beats[1..]);
    }
  }

  lemma FatesCons(beats: seq<Beat>)
    requires beats != []
    ensures Fates(beats) == if beats[0].Meet? then [beats[0].fate] + Fates(beats[1..]) else Fates(beats[1..])
  {
  }

  // After the first message: the second follows unless the next step crashes.
  lemma {:induction false} AmidSent(todo: seq<Instr>, uid: Uid, r: Run, beats: seq<Beat>)
    requires Ahead(todo, uid, -4) && r.alive && !r.regs.hasMessages && Talked(r.store, uid, [Welcome1])
    ensures Talked(Amid(todo, uid, r, beats).store, uid, if Survives(Fates(beats), 1) then BOTH_WELCOMES else [Welcome1])
    ensures Amid(todo, uid, r, beats).alive ==> Survives(Fates(beats), 1)
    decreases beats
  {
    if beats != [] {
      FatesCons(beats);
    }
    if beats != [] && beats[0].Says? {
      PostedTalk(r.store, uid);
      AmidSent(todo, uid, r.(store := Posted(r.store, uid)), beats[1..]);
    } else {
      AheadRest(todo, uid, -4);
      AmidNext(todo, uid, r, beats);
      var (r', rest) := Next(todo, r, beats);
      if beats != [] && beats[0].fate == Crash {
        AmidTalk(todo[1..], uid, -5, r', rest, [Welcome1]);
        AmidDead(todo[1..], uid, r', rest);
      } else {
        Sent(r.store, r.regs, uid, Welcome2, if beats == [] then Fine else beats[0].fate.luck);
        assert [Welcome1] + [Welcome2] == BOTH_WELCOMES;
        AmidTalk(todo[1..], uid, -5, r', rest, BOTH_WELCOMES);
      }
    }
  }

  // What a crashed attempt leaves of a live channel without messages of the service.
  predicate LeftAlone(end: Run, uid: Uid, written: bool) {
    !end.alive && IsLive(end.store, uid) && Service(end.store.channels[uid].messages) == []
    && (end.store.channels[uid].messages != [] <==> written)
  }

  // Between asking, with no messages found, and sending.
  lemma {:induction false} AmidAsked(todo: seq<Instr>, uid: Uid, r: Run, beats: seq<Beat>)
    requires Ahead(todo, uid, -3) && r.alive && !r.regs.hasMessages && IsLive(r.store, uid)
    requires Service(r.store.channels[uid].messages) == []
    ensures var end := Amid(todo, uid, r, beats);
            if Survives(Fates(beats), 1)
            then Talked(end.store, uid, if Survives(Fates(beats), 2) then BOTH_WELCOMES else [Welcome1])
            else LeftAlone(end, uid, r.store.channels[uid].messages != [] || Writes(beats))
    ensures Amid(todo, uid, r, beats).alive ==> Survives(Fates(beats), 2)
    decreases beats
  {
    if beats != [] {
      FatesCons(beats);
      WritesCons(beats);
    }
    if beats != [] && beats[0].Says? {
      PostedTalk(r.store, uid);
      AmidAsked(todo, uid, r.(store := Posted(r.store, uid)), beats[1..]);
    } else {
      AheadRest(todo, uid, -3);
      AmidNext(todo, uid, r, beats);
      var (r', rest) := Next(todo, r, beats);
      if beats != [] {
        SurvivesCons(beats[0].fate, Fates(beats[1..]), 1);
        SurvivesCons(beats[0].fate, Fates(beats[1..]), 2);
      }
      if beats != [] && beats[0].fate == Crash {
        AmidDead(todo[1..], uid, r', rest);
      } else {
        Sent(r.store, r.regs, uid, Welcome1, if beats == [] then Fine else beats[0].fate.luck);
        assert [] + [Welcome1] == [Welcome1];
        AmidSent(todo[1..], uid, r', rest);
      }
    }
  }

  // What an attempt leaves of a channel without messages, seen from before it asks for them.
  ghost predicate LeftBlankOrWelcomed(end: Run, uid: Uid, create: int, live: bool, beats: seq<Beat>) {
    if WroteFirst(create, live, beats) then Talked(end.store, uid, [])
    else if Survives(Fates(beats), create + 4) then
      && Talked(end.store, uid, if Survives(Fates(beats), create + 5) then BOTH_WELCOMES else [Welcome1])
      && (end.alive ==> Survives(Fates(beats), create + 5))
    else
      && !end.alive && Blank(end.store, uid)
      && (IsLive(end.store, uid) <==> live || Survives(Fates(beats), create + 1))
  }

  // A step before the channel's messages are asked for, taken on a channel without any.
  lemma BlankStep(i: Instr, uid: Uid, create: int, r: Run, luck: Luck)
    requires At(i, uid, -create) && -2 <= create && r.alive && !r.regs.hasMessages && Blank(r.store, uid)
    requires create < 0 ==> IsLive(r.store, uid)
    ensures !Skips(i, r.regs)
    ensures var r' := Fated(i, r, Go(luck));
            && r'.alive && !r'.regs.hasMessages && Blank(r'.store, uid)
            && (IsLive(r'.store, uid) <==> IsLive(r.store, uid) || create == 0)
  {
    if Aside(i, uid) {
      LeavesAloneStep(i, uid, r, luck);
    }
  }

  lemma BlankSays(end: Run, uid: Uid, create: int, beats: seq<Beat>)
    requires beats != [] && beats[0].Says? && 0 <= create
    requires LeftBlankOrWelcomed(end, uid, create, false, beats[1..])
    ensures LeftBlankOrWelcomed(end, uid, create, false, beats)
  {
    WroteAfterSays(create, false, beats);
    FatesCons(beats);
  }

  lemma LiveSays(end: Run, uid: Uid, create: int, beats: seq<Beat>)
    requires beats != [] && beats[0].Says? && -2 <= create && Talked(end.store, uid, [])
    ensures LeftBlankOrWelcomed(end, uid, create, true, beats)
  {
    WroteAfterSays(create, true, beats);
  }

  lemma BlankCrash(end: Run, uid: Uid, create: int, live: bool, beats: seq<Beat>)
    requires beats != [] && beats[0] == Meet(Crash) && -2 <= create && (create < 0 ==> live)
    requires if live then LeftAlone(end, uid, Writes(beats[1..])) else !end.alive && !IsLive(end.store, uid)
    requires !live ==> Blank(end.store, uid)
    ensures LeftBlankOrWelcomed(end, uid, create, live, beats)
  {
    WroteAfterCrash(create, live, beats);
    FatesCons(beats);
    SurvivesCons(Crash, Fates(beats[1..]), create + 4);
    SurvivesCons(Crash, Fates(beats[1..]), create + 1);
    ServiceOfNothing(end.store, uid);
  }

  lemma ServiceOfNothing(s: Store, uid: Uid)
    ensures IsLive(s, uid) && s.channels[uid].messages == [] ==> Blank(s, uid)
  {
  }

  lemma NothingWritten(create: int, live: bool)
    ensures !WroteFirst(create, live, [])
  {
  }

  // Once the channel must exist, it does not matter whether it did before.
  lemma LiveByThen(beats: seq<Beat>)
    ensures WroteFirst(-1, false, beats) <==> WroteFirst(-1, true, beats)
  {
    forall j | 0 <= j < |beats| ensures Heard(-1, false, beats, j) <==> Heard(-1, true, beats, j) {
    }
  }

  lemma AskedWrote(beats: seq<Beat>)
    ensures WroteFirst(-3, true, beats) <==> Writes(beats) && !Survives(Fates(beats), 1)
  {
    if Writes(beats) && !Survives(Fates(beats), 1) {
      var j :| 0 <= j < |beats| && beats[j].Says?;
      assert Heard(-3, true, beats, j);
    }
  }

  // From the beats after a step taken to those before it.
  lemma BlankGoesOn(end: Run, uid: Uid, create: int, live: bool, beats: seq<Beat>)
    requires beats != [] ==> beats[0].Meet? && beats[0].fate != Crash
    requires -1 <= create && (create < 0 ==> live)
    requires LeftBlankOrWelcomed(end, uid, create - 1, live || create == 0, if beats == [] then [] else beats[1..])
    ensures LeftBlankOrWelcomed(end, uid, create, live, beats)
  {
    if beats == [] {
      NothingWritten(create, live);
      NothingWritten(create - 1, live || create == 0);
    } else {
      WroteAfterGo(create, live, beats);
      LiveByThen(beats[1..]);
      FatesCons(beats);
      SurvivesCons(beats[0].fate, Fates(beats[1..]), create + 4);
      SurvivesCons(beats[0].fate, Fates(beats[1..]), create + 5);
      SurvivesCons(beats[0].fate, Fates(beats[1..]), create + 1);
    }
  }

  lemma AskedGoesOn(end: Run, uid: Uid, beats: seq<Beat>)
    requires beats != [] ==> beats[0].Meet? && beats[0].fate != Crash
    requires var rest := if beats == [] then [] else beats[1..];
             if Survives(Fates(rest), 1)
             then Talked(end.store, uid, if Survives(Fates(rest), 2) then BOTH_WELCOMES else [Welcome1])
                  && (end.alive ==> Survives(Fates(rest), 2))
             else LeftAlone(end, uid, Writes(rest))
    ensures LeftBlankOrWelcomed(end, uid, -2, true, beats)
  {
    if beats == [] {
      NothingWritten(-2, true);
    } else {
      WroteAfterGo(-2, true, beats);
      AskedWrote(beats[1..]);
      FatesCons(beats);
      SurvivesCons(beats[0].fate, Fates(beats[1..]), 2);
      SurvivesCons(beats[0].fate, Fates(beats[1..]), 3);
    }
  }

  // Main lemma: for every way an attempt may crash and be written into.
  lemma {:induction false} AmidBlank(todo: seq<Instr>, uid: Uid, create: int, r: Run, beats: seq<Beat>)
    requires Ahead(todo, uid, create) && -2 <= create && r.alive && !r.regs.hasMessages && Blank(r.store, uid)
    requires create < 0 ==> IsLive(r.store, uid)
    ensures LeftBlankOrWelcomed(Amid(todo, uid, r, beats), uid, create, IsLive(r.store, uid), beats)
    decreases |todo| + |beats|
  {
    var live, end := IsLive(r.store, uid), Amid(todo, uid, r, beats);
    if beats != [] && beats[0].Says? {
      if live {
        PostedTalk(r.store, uid);
        AmidTalk(todo, uid, create, r.(store := Posted(r.store, uid)), beats[1..], []);
        LiveSays(end, uid, create, beats);
      } else {
        AmidBlank(todo, uid, create, r, beats[1..]);
        BlankSays(end, uid, create, beats);
      }
    } else {
      AheadRest(todo, uid, create);
      AmidNext(todo, uid, r, beats);
      BlankStep(todo[0], uid, create, r, if beats == [] || beats[0].fate == Crash then Fine else beats[0].fate.luck);
      var (r', rest) := Next(todo, r, beats);
      if beats != [] && beats[0].fate == Crash {
        AmidDead(todo[1..], uid, r', rest);
        BlankCrash(end, uid, create, live, beats);
      } else if create == -2 {
        AmidAsked(todo[1..], uid, r', rest);
        AskedGoesOn(end, uid, beats);
      } else {
        AmidBlank(todo[1..], uid, create - 1, r', rest);
        BlankGoesOn(end, uid, create, live, beats);
      }
    }
  }

  // ----- Whole deliveries of booking.created and booking.rescheduled -----

  predicate Resumes(h: Handler) { h.Created? || h.Rescheduled? }

  // How many steps a delivery takes before it ensures the chat.
  function CleanupSteps(h: Handler, b: Booking): nat { |CleanupPlan(h, b, "")| }

  ghost predicate AllAside(plan: seq<Instr>, uid: Uid) { forall i | i in plan :: Aside(i, uid) }

  ghost predicate AllLeaveAlone(plan: seq<Instr>, uid: Uid) { forall i | i in plan :: LeavesAlone(i, uid) }

  lemma PiecesAhead(cleanup: seq<Instr>, chat: seq<Instr>, rest: seq<Instr>, uid: Uid)
    requires AllAside(cleanup, uid) && AllLeaveAlone(rest, uid)
    requires |chat| == 5 && forall k :: 0 <= k < 5 ==> At(chat[k], uid, k)
    ensures Ahead(cleanup + (chat + rest), uid, |cleanup|)
  {
    var plan, n := cleanup + (chat + rest), |cleanup|;
    forall k | 0 <= k < |plan| ensures At(plan[k], uid, k - n) {
      if k < n {
        assert plan[k] == cleanup[k] && cleanup[k] in cleanup;
      } else if k < n + 5 {
        assert plan[k] == chat[k - n];
      } else {
        assert plan[k] == rest[k - n - 5] && rest[k - n - 5] in rest;
      }
    }
  }

  lemma LinksLeaveChat(h: Handler, b: Booking, ceId: string)
    ensures AllLeaveAlone(LinksPlan(h, b, ceId), b.uid)
  {
    assert AllLeaveAlone(UrlPlan(h, b, Organizer, ceId), b.uid) && AllLeaveAlone(UrlPlan(h, b, Client, ceId), b.uid);
    assert AllLeaveAlone(VideoPlan(b), b.uid);
  }

  lemma NotifyLeavesChat(b: Booking, trigger: string, ceId: string)
    ensures AllLeaveAlone(NotifyPlan(b, trigger, true, ceId), b.uid)
  {
  }

  lemma ChatIsAhead(b: Booking, ceId: string)
    requires b.user.Some? && b.client.Some?
    ensures var chat := ChatPlan(b, ceId); |chat| == 5 && forall k :: 0 <= k < 5 ==> At(chat[k], b.uid, k)
  {
  }

  lemma CleanupIsAside(h: Handler, b: Booking, ceId: string)
    requires Resumes(h)
    ensures AllAside(CleanupPlan(h, b, ceId), b.uid) && |CleanupPlan(h, b, ceId)| == CleanupSteps(h, b)
  {
  }

  lemma AfterCleanup(h: Handler, b: Booking, ceId: string, cleanup: seq<Instr>)
    requires b.user.Some? && b.client.Some? && AllAside(cleanup, b.uid)
    ensures Ahead(cleanup + (ChatPlan(b, ceId) + (LinksPlan(h, b, ceId) + NotifyPlan(b, Trigger(h), true, ceId))),
                  b.uid, |cleanup|)
  {
    LinksLeaveChat(h, b, ceId);
    NotifyLeavesChat(b, Trigger(h), ceId);
    ChatIsAhead(b, ceId);
    PiecesAhead(cleanup, ChatPlan(b, ceId), LinksPlan(h, b, ceId) + NotifyPlan(b, Trigger(h), true, ceId), b.uid);
  }

  lemma PlanIsAhead(h: Handler, b: Booking, ceId: string)
    requires Resumes(h) && b.user.Some? && b.client.Some?
    ensures Ahead(Plan(h, b, ceId), b.uid, CleanupSteps(h, b))
  {
    CleanupIsAside(h, b, ceId);
    AfterCleanup(h, b, ceId, CleanupPlan(h, b, ceId));
  }

  function ServiceIn(s: Store, uid: Uid): seq<Message> {
    if IsLive(s, uid) then Service(s.channels[uid].messages) else []
  }

  // What the service will have said: nothing if somebody wrote before the first attempt that gets to
  // send had asked; else the first message alone if that attempt crashed right after it; else both.
  function Outcome(create: nat, live: bool, tries: seq<seq<Beat>>): seq<Message>
    decreases tries
  {
    if tries == [] || WroteFirst(create, live, tries[0]) then []
    else if Survives(Fates(tries[0]), create + 4) then
      if Survives(Fates(tries[0]), create + 5) then BOTH_WELCOMES else [Welcome1]
    else Outcome(create, live || Survives(Fates(tries[0]), create + 1), tries[1..])
  }

  lemma {:induction false} TalkStays(h: Handler, b: Booking, ceId: string, s: Store, tries: seq<seq<Beat>>,
                                     service: seq<Message>)
    requires Resumes(h) && b.user.Some? && b.client.Some? && Talked(s, b.uid, service)
    ensures Talked(Deliveries(Plan(h, b, ceId), b.uid, s, tries), b.uid, service)
    decreases tries
  {
    if tries != [] {
      var plan := Plan(h, b, ceId);
      PlanIsAhead(h, b, ceId);
      AmidTalk(plan, b.uid, CleanupSteps(h, b), Start(s), tries[0], service);
      TalkStays(h, b, ceId, Amid(plan, b.uid, Start(s), tries[0]).store, tries[1..], service);
    }
  }

  // Main theorem. Over any attempts at booking.created or booking.rescheduled, crashing anywhere and
  // with participants writing anywhere, the service's messages are exactly the outcome.
  lemma {:induction false} WelcomeOutcomeIsExact(h: Handler, b: Booking, ceId: string, s: Store, tries: seq<seq<Beat>>)
    requires Resumes(h) && b.user.Some? && b.client.Some? && Blank(s, b.uid)
    ensures ServiceIn(Deliveries(Plan(h, b, ceId), b.uid, s, tries), b.uid)
            == Outcome(CleanupSteps(h, b), IsLive(s, b.uid), tries)
    decreases tries
  {
    if tries != [] {
      var plan, n := Plan(h, b, ceId), CleanupSteps(h, b);
      var end := Amid(plan, b.uid, Start(s), tries[0]);
      PlanIsAhead(h, b, ceId);
      AmidBlank(plan, b.uid, n, Start(s), tries[0]);
      if WroteFirst(n, IsLive(s, b.uid), tries[0]) || Survives(Fates(tries[0]), n + 4) {
        TalkStays(h, b, ceId, end.store, tries[1..], ServiceIn(end.store, b.uid));
      } else {
        WelcomeOutcomeIsExact(h, b, ceId, end.store, tries[1..]);
      }
    }
  }

  // Whether the channel exists when try d begins.
  ghost predicate LiveBefore(create: nat, live: bool, tries: seq<seq<Beat>>, d: nat)
    requires d <= |tries|
  {
    live || exists i :: 0 <= i < d && Survives(Fates(tries[i]), create + 1)
  }

  ghost predicate SomebodyWroteBefore(create: nat, live: bool, tries: seq<seq<Beat>>, d: nat)
    requires d < |tries|
  {
    exists i: nat :: i <= d && WroteFirst(create, LiveBefore(create, live, tries, i), tries[i])
  }

  // The outcome in terms of the first try, d, that gets to send its first message.
  lemma {:induction false} OutcomeAtFirstSender(create: nat, live: bool, tries: seq<seq<Beat>>, d: nat)
    requires d < |tries| && Survives(Fates(tries[d]), create + 4)
    requires forall i :: 0 <= i < d ==> !Survives(Fates(tries[i]), create + 4)
    ensures Outcome(create, live, tries) == [] <==> SomebodyWroteBefore(create, live, tries, d)
    ensures Outcome(create, live, tries) == [Welcome1] <==>
            !SomebodyWroteBefore(create, live, tries, d) && !Survives(Fates(tries[d]), create + 5)
    ensures Outcome(create, live, tries) == BOTH_WELCOMES <==>
            !SomebodyWroteBefore(create, live, tries, d) && Survives(Fates(tries[d]), create + 5)
    decreases d
  {
    assert LiveBefore(create, live, tries, 0) == live;
    if WroteFirst(create, live, tries[0]) {
      assert SomebodyWroteBefore(create, live, tries, d);
    } else if d > 0 {
      var live', rest := live || Survives(Fates(tries[0]), create + 1), tries[1..];
      forall i: nat | i < d ensures LiveBefore(create, live', rest, i) == LiveBefore(create, live, tries, i + 1) {
        LiveBeforeRest(create, live, tries, i);
      }
      OutcomeAtFirstSender(create, live', rest, d - 1);
      WroteBeforeRest(create, live, tries, d);
    }
  }

  lemma LiveBeforeRest(create: nat, live: bool, tries: seq<seq<Beat>>, i: nat)
    requires i < |tries|
    ensures LiveBefore(create, live || Survives(Fates(tries[0]), create + 1), tries[1..], i)
            == LiveBefore(create, live, tries, i + 1)
  {
    var rest := tries[1..];
    if exists j :: 0 <= j < i && Survives(Fates(rest[j]), create + 1) {
      var j :| 0 <= j < i && Survives(Fates(rest[j]), create + 1);
      assert Survives(Fates(tries[j + 1]), create + 1);
    }
    if exists j :: 0 <= j < i + 1 && Survives(Fates(tries[j]), create + 1) {
      var j :| 0 <= j < i + 1 && Survives(Fates(tries[j]), create + 1);
      assert j > 0 ==> Survives(Fates(rest[j - 1]), create + 1);
    }
  }

  lemma WroteBeforeRest(create: nat, live: bool, tries: seq<seq<Beat>>, d: nat)
    requires 0 < d < |tries| && !WroteFirst(create, live, tries[0])
    ensures SomebodyWroteBefore(create, live || Survives(Fates(tries[0]), create + 1), tries[1..], d - 1)
            <==> SomebodyWroteBefore(create, live, tries, d)
  {
    var live', rest := live || Survives(Fates(tries[0]), create + 1), tries[1..];
    assert LiveBefore(create, live, tries, 0) == live;
    forall i: nat | i < d ensures LiveBefore(create, live', rest, i) == LiveBefore(create, live, tries, i + 1) {
      LiveBeforeRest(create, live, tries, i);
    }
    if SomebodyWroteBefore(create, live, tries, d) {
      var i: nat :| i <= d && WroteFirst(create, LiveBefore(create, live, tries, i), tries[i]);
      assert i > 0 && WroteFirst(create, LiveBefore(create, live', rest, i - 1), rest[i - 1]);
    }
    if SomebodyWroteBefore(create, live', rest, d - 1) {
      var i: nat :| i <= d - 1 && WroteFirst(create, LiveBefore(create, live', rest, i), rest[i]);
      assert WroteFirst(create, LiveBefore(create, live, tries, i + 1), tries[i + 1]);
    }
  }

  // ----- Reassignments -----

  lemma ReassignedIsAhead(b: Booking, ceId: string)
    requires b.user.Some? && b.client.Some?
    ensures var plan := Plan(Reassigned, b, ceId);
            |plan| > 0 && plan[0] == DeleteChannel(b.uid, true) && Ahead(plan[1..], b.uid, 1)
  {
    var plan, cleanup := Plan(Reassigned, b, ceId), DeleteChatPlan(b.uid, b.uid, true, ceId);
    AfterCleanup(Reassigned, b, ceId, cleanup[1..]);
    assert plan[1..] == cleanup[1..] + (ChatPlan(b, ceId) + (LinksPlan(Reassigned, b, ceId)
                                                             + NotifyPlan(b, Trigger(Reassigned), true, ceId)));
  }

  lemma {:induction false} ReassignFrom(b: Booking, ceId: string, r: Run, beats: seq<Beat>)
    requires b.user.Some? && b.client.Some? && r.alive && !r.regs.hasMessages
    requires Amid(Plan(Reassigned, b, ceId), b.uid, r, beats).alive
    ensures Talked(Amid(Plan(Reassigned, b, ceId), b.uid, r, beats).store, b.uid,
                   if WroteFirst(2, false, beats) then [] else BOTH_WELCOMES)
    decreases beats
  {
    var plan, uid := Plan(Reassigned, b, ceId), b.uid;
    ReassignedIsAhead(b, ceId);
    if beats != [] && beats[0].Says? {
      ReassignFrom(b, ceId, r.(store := Posted(r.store, uid)), beats[1..]);
      WroteAfterSays(2, false, beats);
    } else {
      AmidNext(plan, uid, r, beats);
      var (r', rest) := Next(plan, r, beats);
      if beats != [] && beats[0].fate == Crash {
        AmidDead(plan[1..], uid, r', rest);
      } else {
        AmidBlank(plan[1..], uid, 1, r', rest);
        BlankGoesOn(Amid(plan, uid, r, beats), uid, 2, false, beats);
      }
    }
  }

  // Main theorem. A reassignment that goes through, from any store, leaves both welcomes, unless
  // somebody writes between its creating the chat and its asking for messages; then it leaves none.
  lemma ReassignOutcomeIsExact(b: Booking, ceId: string, s: Store, beats: seq<Beat>)
    requires b.user.Some? && b.client.Some? && Amid(Plan(Reassigned, b, ceId), b.uid, Start(s), beats).alive
    ensures ServiceIn(Amid(Plan(Reassigned, b, ceId), b.uid, Start(s), beats).store, b.uid)
            == if WroteFirst(2, false, beats) then [] else BOTH_WELCOMES
  {
    ReassignFrom(b, ceId, Start(s), beats);
  }

  // A post between a crash and its redelivery: neither welcome is ever sent.
  lemma PostInTheGap(more: seq<seq<Beat>>)
    ensures var crashed := [Meet(Go(Fine)), Meet(Go(Fine)), Meet(Go(Fine)), Meet(Crash), Says];
            Outcome(0, false, [crashed] + more) == []
  {
    var crashed := [Meet(Go(Fine)), Meet(Go(Fine)), Meet(Go(Fine)), Meet(Crash), Says];
    WroteAfterGo(0, false, crashed);
    assert crashed[1..] == [Meet(Go(Fine)), Meet(Go(Fine)), Meet(Crash), Says];
    WroteAfterGo(-1, false, crashed[1..]);
    assert crashed[1..][1..] == [Meet(Go(Fine)), Meet(Crash), Says];
    WroteAfterGo(-2, false, crashed[1..][1..]);
    assert crashed[1..][1..][1..] == [Meet(Crash), Says];
    WroteAfterCrash(-3, false, [Meet(Crash), Says]);
    assert [Meet(Crash), Says][1..] == [Says] && [Says][0].Says?;
    assert Writes([Says]);
    assert ([crashed] + more)[0] == crashed;
  }

  // ----- When nobody writes -----

  // The first attempt that gets as far as sending crashed right after the first message.
  predicate CrashedBetween(create: nat, attempts: seq<seq<Fate>>)
    decreases attempts
  {
    attempts != []
    && if Survives(attempts[0], create + 4) then !Survives(attempts[0], create + 5)
       else CrashedBetween(create, attempts[1..])
  }

  predicate HoldsExactly(s: Store, uid: Uid, messages: seq<Message>) {
    uid in s.channels && s.channels[uid] == Live(messages)
  }

  lemma {:induction false} FatesOfMeets(fates: seq<Fate>)
    ensures Fates(Meets(fates)) == fates
  {
    if fates != [] {
      assert Meets(fates)[1..] == Meets(fates[1..]);
      FatesOfMeets(fates[1..]);
    }
  }

  lemma QuietAttempt(h: Handler, b: Booking, ceId: string, s: Store, fates: seq<Fate>)
    requires Resumes(h) && b.user.Some? && b.client.Some? && Blank(s, b.uid)
    ensures var n := CleanupSteps(h, b);
            var end := Attempt(Plan(h, b, ceId), Start(s), fates).0;
            && (Survives(fates, n + 4) ==>
                  Talked(end.store, b.uid, if Survives(fates, n + 5) then BOTH_WELCOMES else [Welcome1]))
            && (!Survives(fates, n + 4) ==> Blank(end.store, b.uid))
            && (end.alive ==> Survives(fates, n + 5))
  {
    var n := CleanupSteps(h, b);
    WithoutPosts(Plan(h, b, ceId), b.uid, Start(s), fates);
    FatesOfMeets(fates);
    PlanIsAhead(h, b, ceId);
    AmidBlank(Plan(h, b, ceId), b.uid, n, Start(s), Meets(fates));
    assert !WroteFirst(n, IsLive(s, b.uid), Meets(fates));
    if !Survives(fates, n + 4) {
      assert !Survives(fates, n + 5);
    }
  }

  lemma {:induction false} TalkStaysQuietly(h: Handler, b: Booking, ceId: string, s: Store, attempts: seq<seq<Fate>>,
                                            service: seq<Message>)
    requires Resumes(h) && b.user.Some? && b.client.Some? && Talked(s, b.uid, service)
    ensures Talked(Redeliver(Plan(h, b, ceId), s, attempts), b.uid, service)
    decreases attempts
  {
    if attempts != [] {
      var plan := Plan(h, b, ceId);
      WithoutPosts(plan, b.uid, Start(s), attempts[0]);
      PlanIsAhead(h, b, ceId);
      AmidTalk(plan, b.uid, CleanupSteps(h, b), Start(s), Meets(attempts[0]), service);
      TalkStaysQuietly(h, b, ceId, Attempt(plan, Start(s), attempts[0]).0.store, attempts[1..], service);
    }
  }

  lemma DecidedStays(h: Handler, b: Booking, ceId: string, s: Store, attempts: seq<seq<Fate>>, last: seq<Fate>,
                     service: seq<Message>)
    requires Resumes(h) && b.user.Some? && b.client.Some? && Talked(s, b.uid, service)
    ensures var plan := Plan(h, b, ceId);
            Talked(Attempt(plan, Start(Redeliver(plan, s, attempts)), last).0.store, b.uid, service)
  {
    var plan := Plan(h, b, ceId);
    TalkStaysQuietly(h, b, ceId, s, attempts, service);
    var s2 := Redeliver(plan, s, attempts);
    PlanIsAhead(h, b, ceId);
    WithoutPosts(plan, b.uid, Start(s2), last);
    AmidTalk(plan, b.uid, CleanupSteps(h, b), Start(s2), Meets(last), service);
  }

  lemma {:induction false} GapInService(h: Handler, b: Booking, ceId: string, s: Store,
                                        attempts: seq<seq<Fate>>, last: seq<Fate>)
    requires Resumes(h) && b.user.Some? && b.client.Some? && Blank(s, b.uid)
    requires var plan := Plan(h, b, ceId); Attempt(plan, Start(Redeliver(plan, s, attempts)), last).0.alive
    ensures var plan := Plan(h, b, ceId);
            Talked(Attempt(plan, Start(Redeliver(plan, s, attempts)), last).0.store, b.uid,
                   if CrashedBetween(CleanupSteps(h, b), attempts) then [Welcome1] else BOTH_WELCOMES)
    decreases attempts
  {
    var plan, n := Plan(h, b, ceId), CleanupSteps(h, b);
    if attempts == [] {
      QuietAttempt(h, b, ceId, s, last);
      assert Survives(last, n + 5) ==> Survives(last, n + 4);
    } else {
      var s1 := Attempt(plan, Start(s), attempts[0]).0.store;
      QuietAttempt(h, b, ceId, s, attempts[0]);
      if Survives(attempts[0], n + 4) {
        var service := if Survives(attempts[0], n + 5) then BOTH_WELCOMES else [Welcome1];
        DecidedStays(h, b, ceId, s1, attempts[1..], last, service);
        assert Redeliver(plan, s, attempts) == Redeliver(plan, s1, attempts[1..]);
      } else {
        GapInService(h, b, ceId, s1, attempts[1..], last);
      }
    }
  }

  // Nothing but the service's messages.
  predicate Chatless(s: Store, uid: Uid) { IsLive(s, uid) ==> Chatter !in s.channels[uid].messages }

  lemma {:induction false} ServiceOfChatless(messages: seq<Message>)
    requires Chatter !in messages
    ensures Service(messages) == messages
  {
    if messages != [] {
      assert messages[0] in messages && forall m | m in messages[1..] :: m in messages;
      ServiceOfChatless(messages[1..]);
    }
  }

  ghost predicate SendsNoChatter(plan: seq<Instr>) { forall i | i in plan && i.SendWelcome? :: i.message != Chatter }

  lemma {:induction false} AttemptStaysChatless(plan: seq<Instr>, uid: Uid, r: Run, fates: seq<Fate>)
    requires SendsNoChatter(plan) && Chatless(r.store, uid)
    ensures Chatless(Attempt(plan, r, fates).0.store, uid)
    decreases plan
  {
    if plan != [] && r.alive {
      assert plan[0] in plan && forall i | i in plan[1..] :: i in plan;
      if Skips(plan[0], r.regs) {
        AttemptStaysChatless(plan[1..], uid, r, fates);
      } else {
        var fate := if fates == [] then Go(Fine) else fates[0];
        StepStaysChatless(plan[0], uid, r, fate);
        AttemptStaysChatless(plan[1..], uid, Fated(plan[0], r, fate), if fates == [] then [] else fates[1..]);
      }
    }
  }

  lemma StepStaysChatless(i: Instr, uid: Uid, r: Run, fate: Fate)
    requires (i.SendWelcome? ==> i.message != Chatter) && Chatless(r.store, uid)
    ensures Chatless(Fated(i, r, fate).store, uid)
  {
  }

  lemma {:induction false} RedeliverStaysChatless(plan: seq<Instr>, uid: Uid, s: Store, attempts: seq<seq<Fate>>)
    requires SendsNoChatter(plan) && Chatless(s, uid)
    ensures Chatless(Redeliver(plan, s, attempts), uid)
    decreases attempts
  {
    if attempts != [] {
      AttemptStaysChatless(plan, uid, Start(s), attempts[0]);
      RedeliverStaysChatless(plan, uid, Attempt(plan, Start(s), attempts[0]).0.store, attempts[1..]);
    }
  }

  lemma AheadSendsNoChatter(todo: seq<Instr>, uid: Uid, create: int)
    requires Ahead(todo, uid, create)
    ensures SendsNoChatter(todo)
  {
    forall i | i in todo && i.SendWelcome? ensures i.message != Chatter {
      var k :| 0 <= k < |todo| && todo[k] == i;
      assert At(todo[k], uid, k - create);
    }
  }

  // On a channel without messages in which nobody writes, over any crashes and then an attempt that goes
  // through, both welcomes are there unless the deciding attempt crashed between them; then only the
  // first one ever is. "Skipped when the channel already has messages" is not a full resume.
  lemma WelcomeGapIsExact(h: Handler, b: Booking, ceId: string, s: Store, attempts: seq<seq<Fate>>, last: seq<Fate>)
    requires Resumes(h) && b.user.Some? && b.client.Some? && Blank(s, b.uid)
    requires var plan := Plan(h, b, ceId); Attempt(plan, Start(Redeliver(plan, s, attempts)), last).0.alive
    ensures var plan := Plan(h, b, ceId);
            HoldsExactly(Attempt(plan, Start(Redeliver(plan, s, attempts)), last).0.store, b.uid,
                         if CrashedBetween(CleanupSteps(h, b), attempts) then [Welcome1] else BOTH_WELCOMES)
  {
    var plan := Plan(h, b, ceId);
    GapInService(h, b, ceId, s, attempts, last);
    PlanIsAhead(h, b, ceId);
    AheadSendsNoChatter(plan, b.uid, CleanupSteps(h, b));
    RedeliverStaysChatless(plan, b.uid, s, attempts);
    AttemptStaysChatless(plan, b.uid, Start(Redeliver(plan, s, attempts)), last);
    ServiceOfChatless(Attempt(plan, Start(Redeliver(plan, s, attempts)), last).0.store.channels[b.uid].messages);
  }

  // A reassignment that goes through while nobody writes restores both messages, whatever the channel was.
  lemma ReassignRestoresWelcomes(b: Booking, ceId: string, s: Store, fates: seq<Fate>)
    requires b.user.Some? && b.client.Some?
    requires Attempt(Plan(Reassigned, b, ceId), Start(s), fates).0.alive
    ensures HoldsExactly(Attempt(Plan(Reassigned, b, ceId), Start(s), fates).0.store, b.uid, BOTH_WELCOMES)
  {
    var plan := Plan(Reassigned, b, ceId);
    WithoutPosts(plan, b.uid, Start(s), fates);
    ReassignFrom(b, ceId, Start(s), Meets(fates));
    assert !WroteFirst(2, false, Meets(fates));
    ReassignedIsAhead(b, ceId);
    AheadSendsNoChatter(plan[1..], b.uid, 1);
    var fate := if fates == [] then Go(Fine) else fates[0];
    var r := Fated(plan[0], Start(s), fate);
    var rest := if fates == [] then [] else fates[1..];
    assert Attempt(plan, Start(s), fates) == Attempt(plan[1..], r, rest);
    AttemptStaysChatless(plan[1..], b.uid, r, rest);
    ServiceOfChatless(Attempt(plan, Start(s), fates).0.store.channels[b.uid].messages);
  }
}
