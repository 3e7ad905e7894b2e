/** Blacklist checks that interleave: each may be suspended while its fetch is under way, and the
    server's set changes all the time. Answers are compared with the server's sets. */
module CacheRaces {
  import opened Wrappers
  import opened Email
  import opened Blacklist

  // The active set, lower-cased, at every instant.
  type Server = int -> seq<string>

  // A check waiting for its fetch. got is the response, once the server has made it.
  datatype Flight = Flight(email: string, startedAt: int, got: Option<seq<string>>)

  // How an answer came about: from the fresh cache, from the check's own fetch, from the cache as it
  // was found after the fetch had failed, or from nothing at all.
  datatype Origin = Hit | Own(startedAt: int) | Stale | Open

  datatype Answered = Answered(at: int, email: string, verdict: bool, origin: Origin)

  datatype Sys = Sys(now: int, cache: Cache, flights: map<nat, Flight>, answers: seq<Answered>)

  datatype Action =
    | Wait(micros: nat)
    | Begin(id: nat, email: string)   // up to the answer from the cache, or to the await
    | Respond(id: nat)                // the server takes its snapshot
    | Land(id: nat)                   // the response arrives
    | Fail(id: nat)                   // the fetch raises something that is caught
    | Abort(id: nat)                  // it raises something else, or the check is cancelled

  predicate Enabled(s: Sys, a: Action) {
    match a
    case Wait(_) => true
    case Begin(id, _) => id !in s.flights
    case Respond(id) => id in s.flights && s.flights[id].got.None?
    case Land(id) => id in s.flights && s.flights[id].got.Some?
    case Fail(id) => id in s.flights
    case Abort(id) => id in s.flights
  }

  function Say(s: Sys, email: string, values: Option<set<string>>, origin: Origin): Sys {
    s.(answers := s.answers + [Answered(s.now, email, Verdict(values, email), origin)])
  }

  function Act(server: Server, ttl: int, s: Sys, a: Action): Sys
    requires Enabled(s, a)
  {
    match a
    case Wait(micros) => s.(now := s.now + micros)
    case Begin(id, email) =>
      if Fresh(s.cache, ttl, s.now) then Say(s, email, s.cache.values, Hit)
      else s.(flights := s.flights[id := Flight(email, s.now, None)])
    case Respond(id) =>
      s.(flights := s.flights[id := s.flights[id].(got := Some(server(s.now)))])
    case Land(id) =>
      var f := s.flights[id];
      var cache := After(s.cache, f.startedAt, Values(f.got.value));
      Say(s.(cache := cache, flights := s.flights - {id}), f.email, cache.values, Own(f.startedAt))
    case Fail(id) =>
      Say(s.(flights := s.flights - {id}), s.flights[id].email, s.cache.values,
             if s.cache.values.Some? then Stale else Open)
    case Abort(id) => s.(flights := s.flights - {id})
  }

  // A process that starts at some instant.
  function Boot(now: int): Sys { Sys(now, EMPTY, map[], []) }

  ghost predicate Runs(server: Server, ttl: int, s: Sys, actions: seq<Action>, end: Sys)
    decreases actions
  {
    if actions == [] then s == end
    else Enabled(s, actions[0]) && Runs(server, ttl, Act(server, ttl, s, actions[0]), actions[1..], end)
  }

  // The state after a check that nothing interleaves with, when its fetch ends in the given way.
  function Alone(server: Server, ttl: int, s: Sys, id: nat, email: string, ending: Action): Sys
    requires id !in s.flights && ending in {Land(id), Fail(id), Abort(id)}
  {
    var begun := Act(server, ttl, s, Begin(id, email));
    if Fresh(s.cache, ttl, s.now) then begun
    else if ending.Land? then Act(server, ttl, Act(server, ttl, begun, Respond(id)), ending)
    else Act(server, ttl, begun, ending)
  }

  // What the server's reply was, as the client sees it.
  function ReplyOf(server: Server, now: int, ending: Action): Reply {
    match ending
    case Land(_) => Values(server(now))
    case Abort(_) => Uncaught
    case _ => Caught
  }

  // Such a check is a call of the client: the same cache, and the same answer or none when it raises.
  lemma AloneIsAsk(server: Server, ttl: int, s: Sys, id: nat, email: string, ending: Action)
    requires id !in s.flights && ending in {Land(id), Fail(id), Abort(id)}
    ensures var (cache, step) := Ask(true, ttl, s.cache, Call(email, s.now, ReplyOf(server, s.now, ending)));
            var end := Alone(server, ttl, s, id, email, ending);
            && end.cache == cache && end.flights == s.flights && end.now == s.now
            && (step.answer == Raised ==> end.answers == s.answers)
            && (step.answer.Said? ==> exists origin ::
                  end.answers == s.answers + [Answered(s.now, email, step.answer.blacklisted, origin)])
  {
    var begun := Act(server, ttl, s, Begin(id, email));
    if !Fresh(s.cache, ttl, s.now) {
      assert begun.flights - {id} == s.flights;
      if ending.Land? {
        assert Act(server, ttl, begun, Respond(id)).flights - {id} == s.flights;
      }
    }
    var end := Alone(server, ttl, s, id, email, ending);
    if end.answers != s.answers {
      var a := end.answers[|s.answers|];
      assert end.answers == s.answers + [Answered(s.now, email, a.verdict, a.origin)];
    }
  }

  // ----- The invariant -----

  // The values are the server's at some instant between the two.
  ghost predicate SnapshotIn(server: Server, from: int, to: int, values: set<string>) {
    exists t :: from <= t <= to && values == LowerAll(server(t))
  }

  ghost predicate FlightGood(server: Server, now: int, f: Flight) {
    f.startedAt <= now
    && (f.got.Some? ==> exists t :: f.startedAt <= t <= now && f.got.value == server(t))
  }

  function Later(a: int, b: int): int { if a < b then b else a }

  // The check answers as if it had asked the server at some instant between the two.
  ghost predicate AsIfAsked(server: Server, from: int, to: int, a: Answered) {
    exists t :: from <= t <= to && (a.verdict <==> Listed(server(t), a.email))
  }

  ghost predicate AnswerGood(server: Server, ttl: int, boot: int, a: Answered) {
    match a.origin
    case Hit => AsIfAsked(server, Later(boot, a.at - ttl + 1), a.at, a)
    case Own(startedAt) => boot <= startedAt && AsIfAsked(server, startedAt, a.at, a)
    case Stale => AsIfAsked(server, boot, a.at, a)
    case Open => !a.verdict
  }

  ghost predicate Inv(server: Server, ttl: int, boot: int, s: Sys) {
    && boot <= s.now
    && (s.cache.values.Some? ==>
          boot <= s.cache.fetchedAt && SnapshotIn(server, s.cache.fetchedAt, s.now, s.cache.values.value))
    && (forall id | id in s.flights :: boot <= s.flights[id].startedAt && FlightGood(server, s.now, s.flights[id]))
    && (forall i :: 0 <= i < |s.answers| ==> s.answers[i].at <= s.now && AnswerGood(server, ttl, boot, s.answers[i]))
  }

  lemma VerdictOfSnapshot(server: Server, from: int, to: int, values: set<string>, a: Answered)
    requires SnapshotIn(server, from, to, values) && a.verdict == Verdict(Some(values), a.email)
    ensures AsIfAsked(server, from, to, a)
  {
    var t :| from <= t <= to && values == LowerAll(server(t));
    VerdictIsListed(server(t), a.email);
  }

  lemma WaitKeeps(server: Server, ttl: int, boot: int, s: Sys, micros: nat)
    requires Inv(server, ttl, boot, s)
    ensures Inv(server, ttl, boot, s.(now := s.now + micros))
  {
    if s.cache.values.Some? {
      var t :| s.cache.fetchedAt <= t <= s.now && s.cache.values.value == LowerAll(server(t));
    }
    forall id | id in s.flights ensures FlightGood(server, s.now + micros, s.flights[id]) {
      var f := s.flights[id];
      if f.got.Some? {
        var t :| f.startedAt <= t <= s.now && f.got.value == server(t);
      }
    }
  }

  lemma LandKeeps(server: Server, ttl: int, boot: int, s: Sys, id: nat)
    requires Inv(server, ttl, boot, s) && Enabled(s, Land(id))
    ensures Inv(server, ttl, boot, Act(server, ttl, s, Land(id)))
  {
    var f := s.flights[id];
    assert FlightGood(server, s.now, f);
    var t :| f.startedAt <= t <= s.now && f.got.value == server(t);
    var values := LowerAll(f.got.value);
    assert SnapshotIn(server, f.startedAt, s.now, values);
    VerdictOfSnapshot(server, f.startedAt, s.now, values,
                      Answered(s.now, f.email, Verdict(Some(values), f.email), Own(f.startedAt)));
  }

  lemma ActKeeps(server: Server, ttl: int, boot: int, s: Sys, a: Action)
    requires Inv(server, ttl, boot, s) && Enabled(s, a)
    ensures Inv(server, ttl, boot, Act(server, ttl, s, a))
  {
    match a
    case Wait(micros) => WaitKeeps(server, ttl, boot, s, micros);
    case Begin(id, email) =>
      if Fresh(s.cache, ttl, s.now) {
        var t :| s.cache.fetchedAt <= t <= s.now && s.cache.values.value == LowerAll(server(t));
        assert SnapshotIn(server, Later(boot, s.now - ttl + 1), s.now, s.cache.values.value);
        VerdictOfSnapshot(server, Later(boot, s.now - ttl + 1), s.now, s.cache.values.value,
                          Answered(s.now, email, Verdict(s.cache.values, email), Hit));
      }
    case Respond(id) =>
      assert FlightGood(server, s.now, s.flights[id]);
    case Land(id) => LandKeeps(server, ttl, boot, s, id);
    case Fail(id) =>
      if s.cache.values.Some? {
        var t :| s.cache.fetchedAt <= t <= s.now && s.cache.values.value == LowerAll(server(t));
        assert SnapshotIn(server, boot, s.now, s.cache.values.value);
        VerdictOfSnapshot(server, boot, s.now, s.cache.values.value,
                          Answered(s.now, s.flights[id].email, Verdict(s.cache.values, s.flights[id].email), Stale));
      }
    case Abort(id) =>
  }

  // Main theorem: in every interleaving the cached set is the server's at some instant since
  // fetchedAt, so a cache hit answers from a snapshot younger than the TTL, a check that fetches
  // answers from a snapshot taken during the check, and failing open never rejects.
  lemma {:induction false} EveryAnswerIsASnapshot(server: Server, ttl: int, boot: int, s: Sys,
                                                  actions: seq<Action>, end: Sys)
    requires Inv(server, ttl, boot, s) && Runs(server, ttl, s, actions, end)
    ensures Inv(server, ttl, boot, end)
    decreases actions
  {
    if actions != [] {
      ActKeeps(server, ttl, boot, s, actions[0]);
      EveryAnswerIsASnapshot(server, ttl, boot, Act(server, ttl, s, actions[0]), actions[1..], end);
    }
  }

  lemma FromBoot(server: Server, ttl: int, boot: int, actions: seq<Action>, end: Sys)
    requires Runs(server, ttl, Boot(boot), actions, end)
    ensures end.cache.values.Some? ==> SnapshotIn(server, end.cache.fetchedAt, end.now, end.cache.values.value)
    ensures forall a | a in end.answers && a.origin == Hit :: AsIfAsked(server, Later(boot, a.at - ttl + 1), a.at, a)
    ensures forall a | a in end.answers && a.origin.Own? :: AsIfAsked(server, a.origin.startedAt, a.at, a)
    ensures forall a | a in end.answers && a.verdict :: exists t :: boot <= t <= a.at && Listed(server(t), a.email)
  {
    EveryAnswerIsASnapshot(server, ttl, boot, Boot(boot), actions, end);
    forall a | a in end.answers
      ensures AnswerGood(server, ttl, boot, a)
      ensures a.verdict ==> exists t :: boot <= t <= a.at && Listed(server(t), a.email)
    {
      var i :| 0 <= i < |end.answers| && end.answers[i] == a;
    }
  }

  // A slow fetch does overwrite a newer one: the cache and fetchedAt go back in time. The check
  // begun first took its snapshot first, and its response arrives last.
  function SlowFetch(first: string, second: string): seq<Action> {
    [Begin(0, first), Respond(0), Wait(1), Begin(1, second), Respond(1), Land(1)]
  }

  lemma CacheGoesBack(server: Server, ttl: int, first: string, second: string) returns (mid: Sys)
    ensures Runs(server, ttl, Boot(0), SlowFetch(first, second), mid) && Enabled(mid, Land(0))
    ensures mid.cache == Cache(Some(LowerAll(server(1))), 1)
    ensures Act(server, ttl, mid, Land(0)).cache == Cache(Some(LowerAll(server(0))), 0)
  {
    var actions := SlowFetch(first, second);
    var s0 := Boot(0);
    var s1 := Act(server, ttl, s0, actions[0]);
    var s2 := Act(server, ttl, s1, actions[1]);
    var s3 := Act(server, ttl, s2, actions[2]);
    var s4 := Act(server, ttl, s3, actions[3]);
    var s5 := Act(server, ttl, s4, actions[4]);
    mid := Act(server, ttl, s5, actions[5]);
    RunsBack(server, ttl, s5, actions[5..], mid);
    RunsBack(server, ttl, s4, actions[4..], mid);
    RunsBack(server, ttl, s3, actions[3..], mid);
    RunsBack(server, ttl, s2, actions[2..], mid);
    RunsBack(server, ttl, s1, actions[1..], mid);
    RunsBack(server, ttl, s0, actions, mid);
  }

  lemma RunsBack(server: Server, ttl: int, s: Sys, actions: seq<Action>, end: Sys)
    requires actions != [] && Enabled(s, actions[0])
    requires |actions| == 1 ==> end == Act(server, ttl, s, actions[0])
    requires |actions| > 1 ==> Runs(server, ttl, Act(server, ttl, s, actions[0]), actions[1..], end)
    ensures Runs(server, ttl, s, actions, end)
  {
  }
}
