/** What the reminder scheduler does to the booking rows and to the event receiver: one tick as a
    function, safety over all runs, and which ticks see which bookings. */
module Reminders {
  import opened Wrappers
  import opened Domain
  import Dedupe

  // One cal.com row as far as reminders are concerned; the table is in order of booking ids.
  datatype Row = Row(
    uid: Uid,
    status: string,
    start: int,
    user: Option<string>,
    client: Option<string>,
    markedAt: Option<int>)

  // What was accepted by the receiver and what was marked, in order.
  datatype Happening =
    | Command(uid: Uid, key: string, to: seq<Recipient>)
    | SentEvent(uid: Uid, key: string, email: string)
    | Marked(uid: Uid)

  datatype State = State(rows: seq<Row>, log: seq<Happening>)

  // An outside call works, fails before its effect, or fails after it when the reply is lost.
  datatype Reply = Ok | Failed | Lost

  datatype Window = Window(shiftFrom: int, shiftTo: int)

  // ----- The query and the marker -----

  predicate Eligible(r: Row, w: Window, now: int) {
    r.status == "accepted" && now + w.shiftFrom <= r.start <= now + w.shiftTo && r.markedAt.None?
  }

  // The accepted, unmarked rows that start within the window, both ends included.
  function Query(rows: seq<Row>, w: Window, now: int): (r: seq<Row>)
    ensures forall b :: b in r <==>
              b in rows && b.status == "accepted" && b.markedAt.None?
              && now + w.shiftFrom <= b.start && b.start <= now + w.shiftTo
  {
    if rows == [] then []
    else (if Eligible(rows[0], w, now) then [rows[0]] else []) + Query(rows[1..], w, now)
  }

  // In the order of the table.
  lemma {:induction false} QueryKeepsOrder(first: seq<Row>, rest: seq<Row>, w: Window, now: int)
    ensures Query(first + rest, w, now) == Query(first, w, now) + Query(rest, w, now)
  {
    if first == [] {
      assert first + rest == rest;
    } else {
      assert (first + rest)[1..] == first[1..] + rest;
      QueryKeepsOrder(first[1..], rest, w, now);
      var head := if Eligible(first[0], w, now) then [first[0]] else [];
      var tail, after := Query(first[1..], w, now), Query(rest, w, now);
      assert head + (tail + after) == head + tail + after;
    }
  }

  function Mark(rows: seq<Row>, uid: Uid, at: int): (r: seq<Row>)
    ensures |r| == |rows|
    ensures forall i :: 0 <= i < |rows| ==>
              r[i] == if rows[i].uid == uid then rows[i].(markedAt := Some(at)) else rows[i]
  {
    if rows == [] then []
    else [if rows[0].uid == uid then rows[0].(markedAt := Some(at)) else rows[0]] + Mark(rows[1..], uid, at)
  }

  // ----- One tick -----

  function First(replies: seq<Reply>): Reply { if replies == [] then Ok else replies[0] }

  function Rest(replies: seq<Reply>): seq<Reply> { if replies == [] then [] else replies[1..] }

  datatype Progress = Progress(state: State, ok: bool, replies: seq<Reply>)

  // Publishing one happening.
  function Accept(p: Progress, h: Happening): Progress {
    if !p.ok then p
    else
      var reply := First(p.replies);
      Progress(if reply == Failed then p.state else p.state.(log := p.state.log + [h]), reply == Ok, Rest(p.replies))
  }

  function MarkSent(p: Progress, uid: Uid, now: int): Progress {
    if !p.ok then p
    else
      var reply := First(p.replies);
      Progress(if reply == Failed then p.state
               else State(Mark(p.state.rows, uid, now), p.state.log + [Marked(uid)]),
               reply == Ok, Rest(p.replies))
  }

  // The organizer first, as far as they are known.
  function Addressees(b: Row): seq<Recipient> {
    (if b.user.Some? then [Recipient(b.user.value, Organizer)] else [])
    + (if b.client.Some? then [Recipient(b.client.value, Client)] else [])
  }

  function CommandFor(b: Row): Happening { Command(b.uid, Dedupe.ReminderKey(b.uid), Addressees(b)) }

  // The command, and the event if there is a client.
  function Tell(p: Progress, b: Row): Progress {
    var commanded := Accept(p, CommandFor(b));
    if b.client.None? then commanded
    else Accept(commanded, SentEvent(b.uid, Dedupe.ReminderSentKey(b.uid), b.client.value))
  }

  // The marker comes last.
  function Remind(p: Progress, b: Row, now: int): Progress {
    MarkSent(Tell(p, b), b.uid, now)
  }

  // A failure ends the tick. The number of bookings done comes along.
  function RemindAll(p: Progress, bookings: seq<Row>, now: int): (Progress, nat)
    decreases bookings
  {
    if bookings == [] || !p.ok then (p, 0)
    else
      var next := Remind(p, bookings[0], now);
      if !next.ok then (next, 0)
      else
        var (end, count) := RemindAll(next, bookings[1..], now);
        (end, count + 1)
  }

  function Tick(s: State, w: Window, now: int, replies: seq<Reply>): (Progress, nat) {
    if First(replies) != Ok then (Progress(s, false, Rest(replies)), 0)   // the query itself failed
    else RemindAll(Progress(s, true, Rest(replies)), Query(s.rows, w, now), now)
  }

  function MarkAll(rows: seq<Row>, bookings: seq<Row>, now: int): seq<Row>
    decreases bookings
  {
    if bookings == [] then rows else MarkAll(Mark(rows, bookings[0].uid, now), bookings[1..], now)
  }

  lemma AcceptRows(p: Progress, h: Happening)
    ensures var end := Accept(p, h);
            && end.state.rows == p.state.rows && (end.ok ==> p.ok)
            && (Lost in end.replies ==> Lost in p.replies)
  {
  }

  lemma RemindRows(p: Progress, b: Row, now: int)
    requires p.ok
    ensures var end := Remind(p, b, now);
            && (end.ok ==> end.state.rows == Mark(p.state.rows, b.uid, now))
            && (!end.ok ==> end.state.rows == p.state.rows
                            || (Lost in p.replies && end.state.rows == Mark(p.state.rows, b.uid, now)))
            && (Lost in end.replies ==> Lost in p.replies)
  {
    var commanded := Accept(p, CommandFor(b));
    AcceptRows(p, CommandFor(b));
    var told := commanded;
    if b.client.Some? {
      told := Accept(commanded, SentEvent(b.uid, Dedupe.ReminderSentKey(b.uid), b.client.value));
      AcceptRows(commanded, SentEvent(b.uid, Dedupe.ReminderSentKey(b.uid), b.client.value));
    }
    assert Remind(p, b, now) == MarkSent(told, b.uid, now);
    if told.ok && First(told.replies) == Lost {
      assert told.replies[0] in told.replies;
    }
  }

  lemma MarkAllCons(rows: seq<Row>, bookings: seq<Row>, n: nat, now: int)
    requires n < |bookings|
    ensures MarkAll(rows, bookings[..n + 1], now) == MarkAll(Mark(rows, bookings[0].uid, now), bookings[1..][..n], now)
  {
    assert bookings[..n + 1][1..] == bookings[1..][..n];
  }

  lemma MarkAllFirst(rows: seq<Row>, bookings: seq<Row>, now: int)
    requires bookings != []
    ensures MarkAll(rows, bookings[..0], now) == rows && MarkAll(rows, bookings[..1], now)
      == Mark(rows, bookings[0].uid, now)
  {
    assert bookings[..1][1..] == [];
  }

  // A tick marks exactly the bookings before the one it fails at; and that one too only when it is
  // the reply to its marking that gets lost.
  lemma {:induction false} FailingTickMarksPrefix(p: Progress, bookings: seq<Row>, now: int)
    requires p.ok
    ensures var (end, count) := RemindAll(p, bookings, now);
            && count <= |bookings| && (end.ok <==> count == |bookings|)
            && (end.state.rows == MarkAll(p.state.rows, bookings[..count], now)
                || (!end.ok && Lost in p.replies && end.state.rows
                    == MarkAll(p.state.rows, bookings[..count + 1], now)))
    decreases bookings
  {
    if bookings == [] {
      assert bookings[..0] == [];
    } else {
      var next := Remind(p, bookings[0], now);
      RemindRows(p, bookings[0], now);
      if next.ok {
        FailingTickMarksPrefix(next, bookings[1..], now);
        var (end, count) := RemindAll(next, bookings[1..], now);
        assert RemindAll(p, bookings, now) == (end, count + 1);
        MarkAllCons(p.state.rows, bookings, count, now);
        if !end.ok {
          MarkAllCons(p.state.rows, bookings, count + 1, now);
        }
      } else {
        assert RemindAll(p, bookings, now) == (next, 0);
        MarkAllFirst(p.state.rows, bookings, now);
      }
    }
  }

  // ----- Runs -----

  // Between two ticks cal.com may change its rows, but neither sets nor clears markers; stop() may be
  // called while the scheduler sleeps before the tick.
  datatype Round = Round(rows: seq<Row>, now: int, replies: seq<Reply>, stops: bool)

  function PlayOne(s: State, w: Window, round: Round): State {
    Tick(s.(rows := round.rows), w, round.now, round.replies).0.state
  }

  function Play(s: State, w: Window, rounds: seq<Round>): State
    decreases rounds
  {
    if rounds == [] then s else Play(PlayOne(s, w, rounds[0]), w, rounds[1..])
  }

  ghost predicate UniqueUids(rows: seq<Row>) {
    forall i, j :: 0 <= i < j < |rows| ==> rows[i].uid != rows[j].uid
  }

  predicate MarkersAgree(s: State) {
    forall r | r in s.rows :: r.markedAt.Some? <==> Marked(r.uid) in s.log
  }

  ghost predicate GoodRounds(s: State, w: Window, rounds: seq<Round>)
    decreases rounds
  {
    rounds != [] ==>
      var s1 := s.(rows := rounds[0].rows);
      UniqueUids(s1.rows) && MarkersAgree(s1)
      && GoodRounds(PlayOne(s, w, rounds[0]), w, rounds[1..])
  }

  // ----- Safety -----

  // A reminder command for the uid was accepted.
  predicate Commanded(log: seq<Happening>, uid: Uid) {
    exists h | h in log :: h.Command? && h.uid == uid
  }

  // Every mark comes after the uid's command; after a mark, the uid is left alone for good.
  ghost predicate SafeLog(log: seq<Happening>) {
    && (forall i :: 0 <= i < |log| && log[i].Marked? ==>
          Commanded(log[..i], log[i].uid))
    && (forall i, j :: 0 <= i < j < |log| && log[i].Marked? ==> log[j].uid != log[i].uid)
    && (forall h | h in log && h.Command? :: h.key == Dedupe.ReminderKey(h.uid))
    && (forall h | h in log && h.SentEvent? :: h.key == Dedupe.ReminderSentKey(h.uid))
  }

  lemma SafeAppend(log: seq<Happening>, h: Happening)
    requires SafeLog(log) && Marked(h.uid) !in log
    requires h.Command? ==> h.key == Dedupe.ReminderKey(h.uid)
    requires h.SentEvent? ==> h.key == Dedupe.ReminderSentKey(h.uid)
    requires h.Marked? ==> Commanded(log, h.uid)
    ensures SafeLog(log + [h])
  {
    var log' := log + [h];
    forall i | 0 <= i < |log'| && log'[i].Marked?
      ensures Commanded(log'[..i], log'[i].uid)
    {
      if i < |log| {
        assert log'[..i] == log[..i];
      } else {
        assert log'[..i] == log;
      }
    }
    forall i, j | 0 <= i < j < |log'| && log'[i].Marked? ensures log'[j].uid != log'[i].uid {
      if j == |log| {
        assert log[i] in log;
      }
    }
  }

  lemma AcceptIsSafe(p: Progress, h: Happening)
    requires SafeLog(p.state.log) && Marked(h.uid) !in p.state.log && MarkersAgree(p.state) && !h.Marked?
    requires h.Command? ==> h.key == Dedupe.ReminderKey(h.uid)
    requires h.SentEvent? ==> h.key == Dedupe.ReminderSentKey(h.uid)
    ensures var end := Accept(p, h);
            && SafeLog(end.state.log) && MarkersAgree(end.state) && p.state.log <= end.state.log
            && (forall u :: Marked(u) in end.state.log <==> Marked(u) in p.state.log)
            && (p.ok && end.ok ==> h in end.state.log) && (end.ok ==> p.ok)
  {
    SafeAppend(p.state.log, h);
  }

  lemma MarkSentIsSafe(p: Progress, uid: Uid, now: int)
    requires SafeLog(p.state.log) && Marked(uid) !in p.state.log && MarkersAgree(p.state)
    requires p.ok ==> Commanded(p.state.log, uid)
    ensures var end := MarkSent(p, uid, now);
            && SafeLog(end.state.log) && MarkersAgree(end.state) && p.state.log <= end.state.log
            && (forall u | u != uid :: Marked(u) in end.state.log <==> Marked(u) in p.state.log)
            && (end.ok ==> Marked(uid) in end.state.log)
  {
    if p.ok {
      SafeAppend(p.state.log, Marked(uid));
      MarkAgrees(p.state, uid, now);
    }
  }

  // Reminding one unmarked booking.
  lemma RemindIsSafe(p: Progress, b: Row, now: int)
    requires SafeLog(p.state.log) && Marked(b.uid) !in p.state.log && MarkersAgree(p.state)
    ensures var end := Remind(p, b, now);
            && SafeLog(end.state.log) && MarkersAgree(end.state) && p.state.log <= end.state.log
            && (forall u | u != b.uid :: Marked(u) in end.state.log <==> Marked(u) in p.state.log)
            && (end.ok ==> Marked(b.uid) in end.state.log)
  {
    var command := CommandFor(b);
    var p1 := Accept(p, command);
    AcceptIsSafe(p, command);
    var p2 := p1;
    if b.client.Some? {
      var sent := SentEvent(b.uid, Dedupe.ReminderSentKey(b.uid), b.client.value);
      AcceptIsSafe(p1, sent);
      p2 := Accept(p1, sent);
      assert p2.ok ==> command in p1.state.log && p1.state.log <= p2.state.log;
    }
    MarkSentIsSafe(p2, b.uid, now);
  }

  lemma MarkAgrees(s: State, uid: Uid, now: int)
    requires MarkersAgree(s)
    ensures MarkersAgree(State(Mark(s.rows, uid, now), s.log + [Marked(uid)]))
  {
    var rows := Mark(s.rows, uid, now);
    forall r | r in rows ensures r.markedAt.Some? <==> Marked(r.uid) in s.log + [Marked(uid)] {
      var i :| 0 <= i < |rows| && rows[i] == r;
      assert s.rows[i] in s.rows;
    }
  }

  ghost predicate DistinctUnmarked(s: State, bookings: seq<Row>) {
    && (forall b | b in bookings :: Marked(b.uid) !in s.log)
    && UniqueUids(bookings)
  }

  lemma {:induction false} RemindAllIsSafe(p: Progress, bookings: seq<Row>, now: int)
    requires SafeLog(p.state.log) && MarkersAgree(p.state) && DistinctUnmarked(p.state, bookings)
    ensures var end := RemindAll(p, bookings, now).0;
            && SafeLog(end.state.log) && MarkersAgree(end.state) && p.state.log <= end.state.log
            && (p.ok && end.ok ==> forall b | b in bookings :: Marked(b.uid) in end.state.log)
    decreases bookings
  {
    if bookings != [] && p.ok {
      var b, rest := bookings[0], bookings[1..];
      var next := Remind(p, b, now);
      assert b in bookings;
      RemindIsSafe(p, b, now);
      if next.ok {
        forall c | c in rest ensures Marked(c.uid) !in next.state.log {
          var i :| 0 <= i < |rest| && rest[i] == c;
          assert bookings[i + 1] == c && c in bookings;
        }
        RemindAllIsSafe(next, rest, now);
        var end := RemindAll(next, rest, now).0;
        assert Marked(b.uid) in next.state.log && next.state.log <= end.state.log;
        assert forall h | h in next.state.log :: h in end.state.log;
      }
    }
  }

  lemma {:induction false} QueryIsUnique(rows: seq<Row>, w: Window, now: int)
    requires UniqueUids(rows)
    ensures UniqueUids(Query(rows, w, now))
  {
    if rows != [] {
      var rest := Query(rows[1..], w, now);
      QueryIsUnique(rows[1..], w, now);
      forall b | b in rest ensures b.uid != rows[0].uid {
        var i :| 0 <= i < |rows[1..]| && rows[1..][i] == b;
        assert rows[i + 1] == b;
      }
    }
  }

  // A booking that is due and whose tick goes through is marked, and its reminder was accepted.
  lemma TickIsSafe(s: State, w: Window, now: int, replies: seq<Reply>)
    requires SafeLog(s.log) && MarkersAgree(s) && UniqueUids(s.rows)
    ensures var end := Tick(s, w, now, replies).0;
            && SafeLog(end.state.log) && MarkersAgree(end.state) && s.log <= end.state.log
            && (end.ok ==> forall r |
                  r in s.rows && r.status == "accepted" && now + w.shiftFrom <= r.start <= now + w.shiftTo ::
                  Marked(r.uid) in end.state.log)
  {
    if First(replies) == Ok {
      var bookings := Query(s.rows, w, now);
      QueryIsUnique(s.rows, w, now);
      RemindAllIsSafe(Progress(s, true, Rest(replies)), bookings, now);
      var end := Tick(s, w, now, replies).0;
      if end.ok {
        forall r | r in s.rows && r.status == "accepted" && now + w.shiftFrom <= r.start <= now + w.shiftTo
          ensures Marked(r.uid) in end.state.log
        {
          if r.markedAt.Some? {
            assert Marked(r.uid) in s.log && forall h | h in s.log :: h in end.state.log;
          } else {
            assert r in bookings;
          }
        }
      }
    }
  }

  // Main theorem: whatever fails in whichever tick, at most one reminder in effect per booking. A
  // marked booking's command was accepted before, all its commands carry one id, none follows the mark.
  lemma {:induction false} RemindersAreSafe(s: State, w: Window, rounds: seq<Round>)
    requires SafeLog(s.log) && GoodRounds(s, w, rounds)
    ensures SafeLog(Play(s, w, rounds).log) && s.log <= Play(s, w, rounds).log
    decreases rounds
  {
    if rounds != [] {
      var s1 := s.(rows := rounds[0].rows);
      TickIsSafe(s1, w, rounds[0].now, rounds[0].replies);
      RemindersAreSafe(PlayOne(s, w, rounds[0]), w, rounds[1..]);
    }
  }

  // ----- Who is reminded -----

  // The organizer and the client of the row, as far as they are known, each once, and nobody else.
  ghost predicate Addresses(to: seq<Recipient>, r: Row) {
    && (forall e :: Recipient(e, Organizer) in to <==> r.user == Some(e))
    && (forall e :: Recipient(e, Client) in to <==> r.client == Some(e))
    && |to| == (if r.user.Some? then 1 else 0) + (if r.client.Some? then 1 else 0)
  }

  // What may happen about a row: commands to its participants, events to its client, its mark.
  ghost predicate About(h: Happening, r: Row) {
    h.uid == r.uid
    && match h
       case Command(_, key, to) => key == "reminder:" + r.uid && Addresses(to, r)
       case SentEvent(_, key, email) => key == "reminder_sent:" + r.uid && r.client == Some(email)
       case Marked(_) => true
  }

  // The row's participants were sent the command, and its client, if there is one, the event.
  ghost predicate Reminded(log: seq<Happening>, r: Row) {
    && (exists h :: h in log && h.Command? && About(h, r))
    && (r.client.Some? ==> SentEvent(r.uid, "reminder_sent:" + r.uid, r.client.value) in log)
  }

  // All that happened is about these rows, and only reminded ones were marked.
  ghost predicate Recorded(log: seq<Happening>, rows: seq<Row>) {
    && (forall h | h in log :: exists r :: r in rows && About(h, r))
    && (forall h | h in log && h.Marked? :: exists r :: r in rows && r.uid == h.uid && Reminded(log, r))
  }

  lemma CommandIsAbout(b: Row)
    ensures About(CommandFor(b), b)
  {
  }

  lemma RemindedLater(log: seq<Happening>, more: seq<Happening>, r: Row)
    requires Reminded(log, r)
    ensures Reminded(log + more, r) && Reminded(more + log, r)
  {
    var h :| h in log && h.Command? && About(h, r);
    assert h in log + more && h in more + log;
  }

  lemma RecordedConcat(log: seq<Happening>, more: seq<Happening>, rows: seq<Row>, rows2: seq<Row>, all: seq<Row>)
    requires Recorded(log, rows) && Recorded(more, rows2)
    requires forall r | r in rows || r in rows2 :: r in all
    ensures Recorded(log + more, all)
  {
    forall h | h in log + more ensures exists r :: r in all && About(h, r) {
      if h in log {
        var r :| r in rows && About(h, r);
      } else {
        var r :| r in rows2 && About(h, r);
      }
    }
    forall h | h in log + more && h.Marked? ensures exists r :: r in all && r.uid == h.uid && Reminded(log + more, r) {
      if h in log {
        var r :| r in rows && r.uid == h.uid && Reminded(log, r);
        RemindedLater(log, more, r);
      } else {
        var r :| r in rows2 && r.uid == h.uid && Reminded(more, r);
        RemindedLater(more, log, r);
      }
    }
  }

  // What accepting one happening adds.
  lemma AcceptAdds(p: Progress, h: Happening) returns (added: seq<Happening>)
    ensures Accept(p, h).state.log == p.state.log + added && Accept(p, h).state.rows == p.state.rows
    ensures added == [] || added == [h]
    ensures Accept(p, h).ok ==> p.ok && added == [h]
  {
    added := if p.ok && First(p.replies) != Failed then [h] else [];
  }

  lemma TellAdds(p: Progress, b: Row) returns (added: seq<Happening>)
    ensures Tell(p, b).state.log == p.state.log + added
    ensures forall h | h in added :: About(h, b) && !h.Marked?
    ensures Tell(p, b).ok ==> p.ok && Reminded(added, b)
  {
    var command := CommandFor(b);
    CommandIsAbout(b);
    added := AcceptAdds(p, command);
    if b.client.Some? {
      var p1 := Accept(p, command);
      var sent := SentEvent(b.uid, Dedupe.ReminderSentKey(b.uid), b.client.value);
      var more := AcceptAdds(p1, sent);
      assert p.state.log + added + more == p.state.log + (added + more);
      assert Tell(p, b).ok ==> command in added + more && sent in added + more;
      added := added + more;
    } else {
      assert Tell(p, b).ok ==> command in added;
    }
  }

  lemma RemindAdds(p: Progress, b: Row, now: int) returns (added: seq<Happening>)
    ensures Remind(p, b, now).state.log == p.state.log + added && Recorded(added, [b])
    ensures Remind(p, b, now).ok ==> p.ok && Reminded(added, b)
  {
    added := TellAdds(p, b);
    assert b in [b];
    var told := Tell(p, b);
    if told.ok && First(told.replies) != Failed {
      RemindedLater(added, [Marked(b.uid)], b);
      assert p.state.log + added + [Marked(b.uid)] == p.state.log + (added + [Marked(b.uid)]);
      added := added + [Marked(b.uid)];
    }
  }

  lemma RemindAllCons(p: Progress, bookings: seq<Row>, now: int)
    requires bookings != [] && p.ok
    ensures var next := Remind(p, bookings[0], now);
            RemindAll(p, bookings, now).0 == if next.ok then RemindAll(next, bookings[1..], now).0 else next
  {
  }

  lemma AllReminded(first: seq<Happening>, more: seq<Happening>, bookings: seq<Row>)
    requires bookings != [] && Reminded(first, bookings[0]) && forall b | b in bookings[1..] :: Reminded(more, b)
    ensures forall b | b in bookings :: Reminded(first + more, b)
  {
    forall b | b in bookings ensures Reminded(first + more, b) {
      if b == bookings[0] {
        RemindedLater(first, more, b);
      } else {
        assert b in bookings[1..];
        RemindedLater(more, first, b);
      }
    }
  }

  lemma {:induction false} RemindAllAdds(p: Progress, bookings: seq<Row>, now: int) returns (added: seq<Happening>)
    ensures var end := RemindAll(p, bookings, now).0;
            && end.state.log == p.state.log + added && Recorded(added, bookings)
            && (p.ok && end.ok ==> forall b | b in bookings :: Reminded(added, b))
    decreases bookings
  {
    added := [];
    if bookings != [] && p.ok {
      var b, rest := bookings[0], bookings[1..];
      var next := Remind(p, b, now);
      RemindAllCons(p, bookings, now);
      added := RemindAdds(p, b, now);
      var more: seq<Happening> := [];
      if next.ok {
        more := RemindAllAdds(next, rest, now);
      }
      RecordedConcat(added, more, [b], if next.ok then rest else [], bookings);
      Regroup(p.state.log, added, more);
      if RemindAll(p, bookings, now).0.ok {
        AllReminded(added, more, bookings);
      }
      added := added + more;
    } else {
      assert p.state.log + [] == p.state.log;
    }
  }

  // Main theorem on a tick: all it adds is about due, unmarked rows and addressed to their participants
  // and nobody else; if it goes through, each of them was reminded, organizer and client.
  lemma TickReminds(s: State, w: Window, now: int, replies: seq<Reply>) returns (added: seq<Happening>)
    ensures var end := Tick(s, w, now, replies).0;
            && end.state.log == s.log + added && Recorded(added, Query(s.rows, w, now))
            && (end.ok ==> forall r | r in Query(s.rows, w, now) :: Reminded(added, r))
  {
    added := [];
    if First(replies) == Ok {
      added := RemindAllAdds(Progress(s, true, Rest(replies)), Query(s.rows, w, now), now);
    } else {
      assert s.log + [] == s.log;
    }
  }

  // What a log says of a row whose participants are the same in all the rows it was recorded of.
  lemma ExactlyItsParticipants(log: seq<Happening>, rows: seq<Row>, r: Row)
    requires Recorded(log, rows) && Reminded(log, r)
    requires forall other | other in rows && other.uid == r.uid :: other.user == r.user && other.client == r.client
    ensures exists h :: h in log && h.Command? && h.uid == r.uid
    ensures forall h | h in log && h.Command? && h.uid == r.uid :: Addresses(h.to, r)
    ensures forall e ::
              (exists h :: h in log && h.SentEvent? && h.uid == r.uid && h.email == e) <==> r.client == Some(e)
  {
    forall h | h in log && h.uid == r.uid ensures About(h, r) {
      var other :| other in rows && About(h, other);
    }
    var h :| h in log && h.Command? && About(h, r);
  }

  // The rows due in some round.
  function DueRows(w: Window, rounds: seq<Round>): seq<Row>
    decreases rounds
  {
    if rounds == [] then [] else Query(rounds[0].rows, w, rounds[0].now) + DueRows(w, rounds[1..])
  }

  lemma RoundReminds(s: State, w: Window, round: Round) returns (added: seq<Happening>)
    ensures PlayOne(s, w, round).log == s.log + added && Recorded(added, Query(round.rows, w, round.now))
  {
    added := TickReminds(s.(rows := round.rows), w, round.now, round.replies);
  }

  lemma PlayCons(s: State, w: Window, rounds: seq<Round>)
    requires rounds != []
    ensures Play(s, w, rounds) == Play(PlayOne(s, w, rounds[0]), w, rounds[1..])
  {
  }

  lemma Regroup(log: seq<Happening>, first: seq<Happening>, more: seq<Happening>)
    ensures log + first + more == log + (first + more)
  {
  }

  // Main theorem over all runs: nothing is ever sent but to the participants of a row due in some round, and
  // a marked booking's participants were all reminded.
  lemma {:induction false} RunReminds(s: State, w: Window, rounds: seq<Round>) returns (added: seq<Happening>)
    ensures Play(s, w, rounds).log == s.log + added && Recorded(added, DueRows(w, rounds))
    decreases rounds
  {
    added := [];
    if rounds == [] {
      assert s.log + [] == s.log;
    } else {
      var first := RoundReminds(s, w, rounds[0]);
      var more := RunReminds(PlayOne(s, w, rounds[0]), w, rounds[1..]);
      PlayCons(s, w, rounds);
      Regroup(s.log, first, more);
      RecordedConcat(first, more, Query(rounds[0].rows, w, rounds[0].now), DueRows(w, rounds[1..]), DueRows(w, rounds));
      added := first + more;
    }
  }

  // ----- Coverage -----

  predicate Sees(w: Window, now: int, start: int) { now + w.shiftFrom <= start <= now + w.shiftTo }

  // Ticks in order of time, at most g apart.
  ghost predicate Paced(ticks: seq<int>, g: int) {
    forall i :: 0 <= i < |ticks| - 1 ==> ticks[i] <= ticks[i + 1] <= ticks[i] + g
  }

  // The times at which a booking is seen all lie within the run.
  predicate Within(w: Window, ticks: seq<int>, start: int) {
    ticks != [] && ticks[0] <= start - w.shiftTo && start - w.shiftFrom <= ticks[|ticks| - 1]
  }

  // From tick p on, k ticks see the start time.
  ghost predicate SeenFrom(w: Window, ticks: seq<int>, start: int, p: int, k: nat) {
    0 <= p && p + k <= |ticks| && forall j :: p <= j < p + k ==> Sees(w, ticks[j], start)
  }

  lemma {:induction false} FirstAtOrAfter(ticks: seq<int>, t: int) returns (p: nat)
    requires ticks != [] && ticks[|ticks| - 1] >= t
    ensures p < |ticks| && ticks[p] >= t && forall i :: 0 <= i < p ==> ticks[i] < t
  {
    if ticks[0] >= t {
      p := 0;
    } else {
      assert ticks[1..][|ticks| - 2] == ticks[|ticks| - 1];
      p := FirstAtOrAfter(ticks[1..], t);
      p := p + 1;
      assert forall i :: 1 <= i < p ==> ticks[i] == ticks[1..][i - 1];
    }
  }

  // From the first tick in the window on, each further tick is at most g later.
  lemma {:induction false} FollowingTicks(w: Window, ticks: seq<int>, g: int, start: int, p: int, k: nat)
    requires Paced(ticks, g) && Within(w, ticks, start) && 0 < g
    requires 0 <= p < |ticks| && start - w.shiftTo <= ticks[p] < start - w.shiftTo + g
    requires k * g <= w.shiftTo - w.shiftFrom + 1
    ensures SeenFrom(w, ticks, start, p, k)
    ensures k > 0 ==> ticks[p + k - 1] < start - w.shiftTo + k * g
  {
    if k > 0 {
      assert k * g == (k - 1) * g + g;
      FollowingTicks(w, ticks, g, start, p, k - 1);
      if k > 1 {
        assert ticks[p + k - 2] < start - w.shiftTo + (k - 1) * g <= start - w.shiftFrom;
        assert ticks[p + k - 2] <= ticks[p + k - 1] <= ticks[p + k - 2] + g;
      }
    }
  }

  // Coverage: with gaps of at most g and k of them within the window, a booking is seen k times.
  lemma SeenByKTicks(w: Window, ticks: seq<int>, g: int, start: int, k: nat) returns (p: nat)
    requires Paced(ticks, g) && Within(w, ticks, start) && 0 < g
    requires k * g <= w.shiftTo - w.shiftFrom + 1 && w.shiftFrom <= w.shiftTo
    ensures SeenFrom(w, ticks, start, p, k)
  {
    p := FirstAtOrAfter(ticks, start - w.shiftTo);
    if p > 0 {
      assert ticks[p - 1] <= ticks[p] <= ticks[p - 1] + g;
    }
    FollowingTicks(w, ticks, g, start, p, k);
  }

  // The bound is sharp: with one more gap than fits, regular ticks see some booking less than k times.
  function Regular(g: int, n: nat): seq<int> { seq(n, i => i * g) }

  lemma SharpBound(w: Window, g: int, k: nat, n: nat, p: int)
    requires 0 < g && w.shiftFrom <= w.shiftTo && k * g > w.shiftTo - w.shiftFrom + 1
    requires 0 < k && n > k && Within(w, Regular(g, n), w.shiftTo + 1)
    ensures !SeenFrom(w, Regular(g, n), w.shiftTo + 1, p, k)
  {
    var ticks := Regular(g, n);
    if p == 0 {
      assert ticks[0] == 0 * g == 0;
      assert !Sees(w, ticks[0], w.shiftTo + 1);
    } else if 0 < p && p + k <= n {
      assert (p + k - 1) * g == (p - 1) * g + k * g;
      assert (p - 1) * g >= 0;
      assert ticks[p + k - 1] >= k * g;
      assert !Sees(w, ticks[p + k - 1], w.shiftTo + 1);
    }
  }

  lemma RegularIsPaced(g: int, n: nat)
    requires 0 < g
    ensures Paced(Regular(g, n), g)
  {
    forall i | 0 <= i < n - 1 ensures Regular(g, n)[i + 1] == Regular(g, n)[i] + g {
      assert (i + 1) * g == i * g + g;
    }
  }

  lemma AtLeastItself(n: nat, g: int)
    requires 0 < g
    ensures n * g >= n
  {
    assert n * g - n == n * (g - 1);
    assert n * (g - 1) >= 0;
  }

  // Main theorem, in whole microseconds: gaps of at most g guarantee k sightings of every booking
  // if and only if k gaps fit into the window.
  lemma CoverageIsExact(w: Window, g: int, k: nat)
    requires 0 < g && 0 < k && w.shiftFrom <= w.shiftTo
    ensures k * g <= w.shiftTo - w.shiftFrom + 1 <==>
            forall ticks: seq<int>, start: int | Paced(ticks, g) && Within(w, ticks, start) ::
              exists p :: SeenFrom(w, ticks, start, p, k)
  {
    if k * g <= w.shiftTo - w.shiftFrom + 1 {
      forall ticks: seq<int>, start: int | Paced(ticks, g) && Within(w, ticks, start)
        ensures exists p :: SeenFrom(w, ticks, start, p, k)
      {
        var p := SeenByKTicks(w, ticks, g, start, k);
      }
    } else {
      var start, width := w.shiftTo + 1, w.shiftTo - w.shiftFrom;
      // The sightings would be at 1 .. 1 + width.
      var n := k + 1 + width + 2;
      var ticks := Regular(g, n);
      RegularIsPaced(g, n);
      assert ticks[0] == 0 * g == 0;
      assert ticks[n - 1] == (n - 1) * g;
      AtLeastItself(n - 1, g);
      assert Within(w, ticks, start);
      forall p ensures !SeenFrom(w, ticks, start, p, k) {
        SharpBound(w, g, k, n, p);
      }
    }
  }

  // ----- Coverage and safety together -----

  function TicksOf(rounds: seq<Round>): (r: seq<int>)
    ensures |r| == |rounds| && forall i :: 0 <= i < |rounds| ==> r[i] == rounds[i].now
  {
    seq(|rounds|, i requires 0 <= i < |rounds| => rounds[i].now)
  }

  // The state in which round i starts its tick.
  function StateAt(s: State, w: Window, rounds: seq<Round>, i: nat): State
    requires i < |rounds|
  {
    Play(s, w, rounds[..i]).(rows := rounds[i].rows)
  }

  predicate Succeeds(s: State, w: Window, rounds: seq<Round>, i: nat)
    requires i < |rounds|
  {
    Tick(StateAt(s, w, rounds, i), w, rounds[i].now, rounds[i].replies).0.ok
  }

  lemma {:induction false} PlaySplit(s: State, w: Window, rounds: seq<Round>, i: nat)
    requires i <= |rounds|
    ensures Play(s, w, rounds) == Play(Play(s, w, rounds[..i]), w, rounds[i..])
    ensures GoodRounds(s, w, rounds) ==> GoodRounds(s, w, rounds[..i]) && GoodRounds(Play(s, w, rounds[..i]), w,
                                                                                     rounds[i..])
    decreases i
  {
    if i == 0 {
      assert rounds[..0] == [] && rounds[0..] == rounds;
    } else {
      var next := PlayOne(s, w, rounds[0]);
      assert rounds[..i][1..] == rounds[1..][..i - 1] && rounds[1..][i - 1..] == rounds[i..];
      PlaySplit(next, w, rounds[1..], i - 1);
    }
  }

  // One successful tick that sees the booking is enough.
  lemma SeenAndDone(s: State, w: Window, rounds: seq<Round>, i: nat, r: Row)
    requires i < |rounds| && SafeLog(s.log) && GoodRounds(s, w, rounds)
    requires r in rounds[i].rows && r.status == "accepted" && Sees(w, rounds[i].now, r.start)
      && Succeeds(s, w, rounds, i)
    ensures Marked(r.uid) in Play(s, w, rounds).log
  {
    PlaySplit(s, w, rounds, i);
    var before := Play(s, w, rounds[..i]);
    RemindersAreSafe(s, w, rounds[..i]);
    var at := StateAt(s, w, rounds, i);
    assert rounds[i..][0] == rounds[i];
    TickIsSafe(at, w, rounds[i].now, rounds[i].replies);
    var after := Tick(at, w, rounds[i].now, rounds[i].replies).0.state;
    RemindersAreSafe(after, w, rounds[i..][1..]);
    assert Play(s, w, rounds) == Play(after, w, rounds[i..][1..]);
    assert after.log <= Play(s, w, rounds).log && forall h | h in after.log :: h in Play(s, w, rounds).log;
  }

  // k ticks in a row, of which one goes through.
  ghost predicate SomeSucceeds(s: State, w: Window, rounds: seq<Round>, p: nat, k: nat)
    requires p + k <= |rounds|
  {
    exists i :: p <= i < p + k && Succeeds(s, w, rounds, i)
  }

  // Main theorem: with ticks at most g apart and k gaps in the window, a booking that is accepted at its
  // start time in the ticks that see it is marked unless k ticks in a row all fail; and unless it was marked
  // from the beginning, the run has then reminded the organizer and the client of its row in some round.
  lemma ReminderGuaranteed(s: State, w: Window, rounds: seq<Round>, g: int, k: nat, uid: Uid, start: int)
    returns (added: seq<Happening>)
    requires SafeLog(s.log) && GoodRounds(s, w, rounds) && 0 < g && w.shiftFrom <= w.shiftTo
    requires Paced(TicksOf(rounds), g) && Within(w, TicksOf(rounds), start) && k * g <= w.shiftTo - w.shiftFrom + 1
    requires forall i :: 0 <= i < |rounds| && Sees(w, rounds[i].now, start) ==>
               exists r :: r in rounds[i].rows && r.uid == uid && r.status == "accepted" && r.start == start
    requires forall p: nat :: p + k <= |rounds| ==> SomeSucceeds(s, w, rounds, p, k)
    ensures Commanded(Play(s, w, rounds).log, uid) && Marked(uid) in Play(s, w, rounds).log
    ensures Play(s, w, rounds).log == s.log + added && Recorded(added, DueRows(w, rounds))
    ensures Marked(uid) !in s.log ==> exists r :: r in DueRows(w, rounds) && r.uid == uid && Reminded(added, r)
  {
    var p := SeenByKTicks(w, TicksOf(rounds), g, start, k);
    assert SomeSucceeds(s, w, rounds, p, k);
    var i :| p <= i < p + k && Succeeds(s, w, rounds, i);
    assert Sees(w, TicksOf(rounds)[i], start) && Sees(w, rounds[i].now, start);
    var r :| r in rounds[i].rows && r.uid == uid && r.status == "accepted" && r.start == start;
    SeenAndDone(s, w, rounds, i, r);
    RemindersAreSafe(s, w, rounds);
    MarkedWasCommanded(Play(s, w, rounds).log, uid);
    added := RunReminds(s, w, rounds);
    if Marked(uid) !in s.log {
      assert Marked(uid) in added;
    }
  }

  // If the booking's participants stay the same, exactly they are reminded.
  lemma ReminderReachesBoth(s: State, w: Window, rounds: seq<Round>, g: int, k: nat, uid: Uid, start: int,
                            user: Option<string>, client: Option<string>) returns (added: seq<Happening>)
    requires SafeLog(s.log) && GoodRounds(s, w, rounds) && 0 < g && w.shiftFrom <= w.shiftTo
    requires Paced(TicksOf(rounds), g) && Within(w, TicksOf(rounds), start) && k * g <= w.shiftTo - w.shiftFrom + 1
    requires forall i :: 0 <= i < |rounds| && Sees(w, rounds[i].now, start) ==>
               exists r :: r in rounds[i].rows && r.uid == uid && r.status == "accepted" && r.start == start
    requires forall p: nat :: p + k <= |rounds| ==> SomeSucceeds(s, w, rounds, p, k)
    requires Marked(uid) !in s.log
    requires forall r | r in DueRows(w, rounds) && r.uid == uid :: r.user == user && r.client == client
    ensures Play(s, w, rounds).log == s.log + added
    ensures exists h :: h in added && h.Command? && h.uid == uid
    ensures forall h | h in added && h.Command? && h.uid == uid ::
              && (forall e :: Recipient(e, Organizer) in h.to <==> user == Some(e))
              && (forall e :: Recipient(e, Client) in h.to <==> client == Some(e))
    ensures forall e :: (exists h :: h in added && h.SentEvent? && h.uid == uid && h.email == e) <==> client == Some(e)
  {
    added := ReminderGuaranteed(s, w, rounds, g, k, uid, start);
    var r :| r in DueRows(w, rounds) && r.uid == uid && Reminded(added, r);
    ExactlyItsParticipants(added, DueRows(w, rounds), r);
  }

  lemma MarkedWasCommanded(log: seq<Happening>, uid: Uid)
    requires SafeLog(log) && Marked(uid) in log
    ensures Commanded(log, uid)
  {
    var j :| 0 <= j < |log| && log[j] == Marked(uid);
    assert Commanded(log[..j], uid);
  }
}
