/** The blacklist client's cache: what its answers mean compared with asking the server each time,
    for calls one after another and for calls that interleave while a fetch is under way. */
module Blacklist {
  import opened Wrappers
  import opened Email

  // ----- The cache -----

  datatype Cache = Cache(values: Option<set<string>>, fetchedAt: int)

  const EMPTY := Cache(None, 0)

  // A fetch brings the active values, fails in a way that is caught, or raises through the caller.
  datatype Reply = Values(raw: seq<string>) | Caught | Uncaught

  predicate Fresh(c: Cache, ttl: int, now: int) {
    c.values.Some? && now - c.fetchedAt < ttl
  }

  function LowerAll(raw: seq<string>): set<string> { set v | v in raw :: Lower(v) }

  // The cache after a fetch, which counts as made when it was started.
  function After(c: Cache, startedAt: int, reply: Reply): Cache {
    if reply.Values? then Cache(Some(LowerAll(reply.raw)), startedAt) else c
  }

  // No values at all: the check fails open.
  predicate Verdict(values: Option<set<string>>, email: string) {
    values.Some? && Lower(Strip(email)) in values.value
  }

  datatype Call = Call(email: string, now: int, reply: Reply)

  datatype Answer = Said(blacklisted: bool) | Raised

  datatype Step = Step(call: Call, asked: bool, answer: Answer)

  function Ask(enabled: bool, ttl: int, c: Cache, call: Call): (Cache, Step) {
    if !enabled then (c, Step(call, false, Said(false)))
    else if Fresh(c, ttl, call.now) then (c, Step(call, false, Said(Verdict(c.values, call.email))))
    else
      var after := After(c, call.now, call.reply);
      (after, Step(call, true, if call.reply == Uncaught then Raised else Said(Verdict(after.values, call.email))))
  }

  class BlacklistClient {
    const enabled: bool
    const ttl: int
    var cachedValues: Option<set<string>>
    var fetchedAt: int

    constructor (enabled: bool, ttl: int)
      ensures this.enabled == enabled && this.ttl == ttl && Contents() == EMPTY
    {
      this.enabled, this.ttl := enabled, ttl;
      cachedValues, fetchedAt := None, 0;
    }

    function Contents(): Cache
      reads this
    {
      Cache(cachedValues, fetchedAt)
    }

    // reply is what the server would answer; it matters only when it is asked.
    method GetValues(now: int, reply: Reply) returns (values: Option<set<string>>, asked: bool, raised: bool)
      modifies this
      ensures asked <==> !Fresh(old(Contents()), ttl, now)
      ensures raised <==> asked && reply == Uncaught
      ensures Contents() == if asked then After(old(Contents()), now, reply) else old(Contents())
      ensures !raised ==> values == cachedValues
    {
      asked, raised, values := false, false, None;
      if cachedValues.Some? && now - fetchedAt < ttl {
        return cachedValues, asked, raised;
      }
      asked := true;
      match reply {
        case Values(raw) =>
          cachedValues := Some(set v | v in raw :: Lower(v));
          fetchedAt := now;
          values := cachedValues;
        case Caught =>
          if cachedValues.Some? {
            values := cachedValues;
          }
        case Uncaught =>
          raised := true;
      }
    }

    method IsBlacklisted(email: string, now: int, reply: Reply) returns (answer: Answer, asked: bool)
      modifies this
      ensures (Contents(), Step(Call(email, now, reply), asked, answer))
              == Ask(enabled, ttl, old(Contents()), Call(email, now, reply))
    {
      if !enabled {
        return Said(false), false;
      }
      var values, raised;
      values, asked, raised := GetValues(now, reply);
      if raised {
        answer := Raised;
      } else if values.None? {
        answer := Said(false);
      } else {
        answer := Said(Lower(Strip(email)) in values.value);
      }
    }
  }

  // ----- One call after another -----

  // What a new client answers to a list of calls, and its cache afterwards.
  function Serve(enabled: bool, ttl: int, calls: seq<Call>): (r: (Cache, seq<Step>))
    ensures |r.1| == |calls| && forall i :: 0 <= i < |calls| ==> r.1[i].call == calls[i]
  {
    if calls == [] then (EMPTY, [])
    else
      var n := |calls| - 1;
      var (cache, log) := Serve(enabled, ttl, calls[..n]);
      var (cache', step) := Ask(enabled, ttl, cache, calls[n]);
      (cache', log + [step])
  }

  predicate Fetched(s: Step) { s.asked && s.call.reply.Values? }

  // j is the last successful fetch among the first n steps.
  predicate LastFetch(log: seq<Step>, n: nat, j: int)
    requires n <= |log|
  {
    0 <= j < n && Fetched(log[j]) && forall k :: j < k < n ==> !Fetched(log[k])
  }

  // An entry of the fetched list is the email, up to case and the space around the email.
  ghost predicate Listed(raw: seq<string>, email: string) {
    exists v :: v in raw && SameAddress(v, email)
  }

  // The last successful fetch among the first n steps lists the email.
  ghost predicate ListedByLast(log: seq<Step>, n: nat, email: string)
    requires n <= |log|
  {
    exists j :: LastFetch(log, n, j) && Listed(log[j].call.reply.raw, email)
  }

  // A step whose answer is what the last successful fetch says, and which asks exactly when that
  // fetch started a TTL ago or more.
  ghost predicate Faithful(ttl: int, log: seq<Step>, i: nat)
    requires i < |log|
  {
    && (log[i].asked <==> forall j :: LastFetch(log, i, j) ==> log[i].call.now - log[j].call.now >= ttl)
    && (log[i].answer == Raised <==> log[i].asked && log[i].call.reply == Uncaught)
    && (log[i].answer.Said? ==>
          (log[i].answer.blacklisted <==> ListedByLast(log, i + 1, log[i].call.email)))
  }

  // The cache is the last successful fetch.
  ghost predicate Holds(c: Cache, log: seq<Step>) {
    && (c.values.None? ==> forall j :: 0 <= j < |log| ==> !Fetched(log[j]))
    && (c.values.Some? ==> exists j ::
          LastFetch(log, |log|, j) && c == Cache(Some(LowerAll(log[j].call.reply.raw)), log[j].call.now))
  }

  lemma VerdictIsListed(raw: seq<string>, email: string)
    ensures Verdict(Some(LowerAll(raw)), email) <==> Listed(raw, email)
  {
    forall v | v in raw ensures SameAddress(v, email) <==> Lower(v) == Lower(Strip(email)) {
      SameAddressByForms(v, email);
    }
  }

  lemma LastFetchIsUnique(log: seq<Step>, n: nat, j: int, k: int)
    requires n <= |log| && LastFetch(log, n, j) && LastFetch(log, n, k)
    ensures j == k
  {
  }

  lemma LastFetchOfPrefix(log: seq<Step>, more: seq<Step>, n: nat, j: int)
    requires n <= |log|
    ensures LastFetch(log + more, n, j) <==> LastFetch(log, n, j)
  {
    assert forall k :: 0 <= k < n ==> (log + more)[k] == log[k];
  }

  lemma FaithfulOfPrefix(ttl: int, log: seq<Step>, more: seq<Step>, i: nat)
    requires i < |log| && Faithful(ttl, log, i)
    ensures Faithful(ttl, log + more, i)
  {
    var n := i + 1;
    forall j ensures LastFetch(log + more, i, j) <==> LastFetch(log, i, j) {
      LastFetchOfPrefix(log, more, i, j);
    }
    forall j ensures LastFetch(log + more, n, j) <==> LastFetch(log, n, j) {
      LastFetchOfPrefix(log, more, n, j);
    }
  }

  lemma AskIsFaithful(ttl: int, c: Cache, log: seq<Step>, call: Call)
    requires Holds(c, log)
    ensures var (c', step) := Ask(true, ttl, c, call); Holds(c', log + [step]) && Faithful(ttl, log + [step], |log|)
  {
    var n, m := |log|, |log| + 1;
    var (c', step) := Ask(true, ttl, c, call);
    var log' := log + [step];
    forall j ensures LastFetch(log', n, j) <==> LastFetch(log, n, j) {
      LastFetchOfPrefix(log, [step], n, j);
    }
    if c.values.Some? {
      var j :| LastFetch(log, n, j) && c == Cache(Some(LowerAll(log[j].call.reply.raw)), log[j].call.now);
      forall k | LastFetch(log', n, k) ensures k == j {
        LastFetchIsUnique(log', n, k, j);
      }
      if !Fetched(step) {
        assert LastFetch(log', m, j);
        VerdictIsListed(log[j].call.reply.raw, call.email);
        forall k | LastFetch(log', m, k) ensures k == j {
          LastFetchIsUnique(log', m, k, j);
        }
      }
    }
    if Fetched(step) {
      assert LastFetch(log', m, n);
      VerdictIsListed(call.reply.raw, call.email);
      forall k | LastFetch(log', m, k) ensures k == n {
        LastFetchIsUnique(log', m, k, n);
      }
    }
  }

  // Main theorem: every answer of an enabled client is membership in the last successful fetch,
  // false before there is one, whatever the clock and the server do.
  lemma {:induction false} AnswersAreLastFetch(ttl: int, calls: seq<Call>)
    ensures var (cache, log) := Serve(true, ttl, calls);
            Holds(cache, log) && forall i :: 0 <= i < |log| ==> Faithful(ttl, log, i)
  {
    if calls != [] {
      var n := |calls| - 1;
      AnswersAreLastFetch(ttl, calls[..n]);
      var (cache, log) := Serve(true, ttl, calls[..n]);
      var (_, step) := Ask(true, ttl, cache, calls[n]);
      AskIsFaithful(ttl, cache, log, calls[n]);
      forall i | 0 <= i < n ensures Faithful(ttl, log + [step], i) {
        FaithfulOfPrefix(ttl, log, [step], i);
      }
    }
  }

  predicate MonotoneClock(calls: seq<Call>) {
    forall i, j :: 0 <= i <= j < |calls| ==> calls[i].now <= calls[j].now
  }

  lemma {:induction false} LatestBefore(log: seq<Step>, n: nat, i: nat) returns (j: nat)
    requires i < n <= |log| && Fetched(log[i])
    ensures i <= j && LastFetch(log, n, j)
  {
    if Fetched(log[n - 1]) {
      j := n - 1;
    } else {
      j := LatestBefore(log, n - 1, i);
    }
  }

  // With a clock that never goes back, successful fetches start at least one TTL apart, and an
  // answer given without asking comes from a fetch started less than a TTL ago.
  lemma FetchesAreSpaced(ttl: int, calls: seq<Call>)
    requires 0 < ttl && MonotoneClock(calls)
    ensures var log := Serve(true, ttl, calls).1;
            && (forall i, k :: 0 <= i < k < |log| && Fetched(log[i]) && Fetched(log[k]) ==>
                  calls[k].now - calls[i].now >= ttl)
            && (forall k :: 0 <= k < |log| && !log[k].asked ==>
                  exists j :: LastFetch(log, k, j) && calls[k].now - calls[j].now < ttl)
  {
    var log := Serve(true, ttl, calls).1;
    AnswersAreLastFetch(ttl, calls);
    forall i, k | 0 <= i < k < |log| && Fetched(log[i]) && Fetched(log[k])
      ensures calls[k].now - calls[i].now >= ttl
    {
      var j := LatestBefore(log, k, i);
      assert Faithful(ttl, log, k);
    }
    forall k | 0 <= k < |log| && !log[k].asked
      ensures exists j :: LastFetch(log, k, j) && calls[k].now - calls[j].now < ttl
    {
      assert Faithful(ttl, log, k);
    }
  }

  // Switched off, the client asks nobody and rejects nobody.
  lemma {:induction false} DisabledNeverAsks(ttl: int, calls: seq<Call>)
    ensures forall s | s in Serve(false, ttl, calls).1 :: !s.asked && s.answer == Said(false)
  {
    if calls != [] {
      DisabledNeverAsks(ttl, calls[..|calls| - 1]);
    }
  }
}
