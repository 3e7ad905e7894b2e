/** The polling scheduler, changing its surroundings step by step. */
module Scheduler {
  import opened Wrappers
  import opened Domain
  import Dedupe
  import opened Reminders

  // cal.com's table, the event receiver, and how they will answer.
  class Surroundings {
    var rows: seq<Row>
    var log: seq<Happening>
    var replies: seq<Reply>

    constructor (rows: seq<Row>, log: seq<Happening>)
      ensures Snapshot() == State(rows, log) && replies == []
    {
      this.rows, this.log, this.replies := rows, log, [];
    }

    function Snapshot(): State
      reads this
    {
      State(rows, log)
    }

    // How things stand in a tick that has gone well so far.
    function Fine(): Progress
      reads this
    {
      Progress(Snapshot(), true, replies)
    }

    method Answer() returns (reply: Reply)
      modifies this`replies
      ensures reply == First(old(replies)) && replies == Rest(old(replies))
    {
      reply := Ok;
      if replies != [] {
        reply := replies[0];
        replies := replies[1..];
      }
    }

    method GetBookings(w: Window, now: int) returns (bookings: seq<Row>, ok: bool)
      modifies this`replies
      ensures ok == (First(old(replies)) == Ok) && replies == Rest(old(replies))
      ensures bookings == if ok then Query(rows, w, now) else []
    {
      var reply := Answer();
      ok, bookings := reply == Ok, [];
      if ok {
        bookings := Query(rows, w, now);
      }
    }

    method Publish(h: Happening) returns (ok: bool)
      modifies this`log, this`replies
      ensures Progress(Snapshot(), ok, replies) == Accept(old(Fine()), h)
    {
      var reply := Answer();
      if reply != Failed {
        log := log + [h];
      }
      ok := reply == Ok;
    }

    method MarkReminderSent(uid: Uid, sentAt: int) returns (ok: bool)
      modifies this
      ensures Progress(Snapshot(), ok, replies) == MarkSent(old(Fine()), uid, sentAt)
    {
      var reply := Answer();
      if reply != Failed {
        rows := Mark(rows, uid, sentAt);
        log := log + [Marked(uid)];
      }
      ok := reply == Ok;
    }
  }

  // The rounds until stop() takes effect: the tick after the sleep it interrupts is the last.
  function Served(rounds: seq<Round>): seq<Round> {
    if rounds == [] then [] else [rounds[0]] + if rounds[0].stops then [] else Served(rounds[1..])
  }

  // They are the rounds up to and including the first in which the scheduler is stopped, or all.
  lemma {:induction false} ServedUpToStop(rounds: seq<Round>, n: nat)
    requires n < |rounds| && (rounds[n].stops || n == |rounds| - 1)
    requires forall i :: 0 <= i < n ==> !rounds[i].stops
    ensures Served(rounds) == rounds[..n + 1]
    decreases n
  {
    if n == 0 {
      assert !rounds[0].stops ==> rounds[1..] == [];
      assert rounds[..1] == [rounds[0]];
    } else {
      ServedUpToStop(rounds[1..], n - 1);
      assert rounds[..n + 1] == [rounds[0]] + rounds[1..][..n];
    }
  }

  // One round of the remaining ones.
  lemma ServedNext(s: State, w: Window, rounds: seq<Round>, i: nat)
    requires i < |rounds|
    ensures var next := PlayOne(s, w, rounds[i]);
            Play(s, w, Served(rounds[i..]))
            == if rounds[i].stops then next else Play(next, w, Served(rounds[i + 1..]))
  {
    var tail := if rounds[i].stops then [] else Served(rounds[i + 1..]);
    assert rounds[i..][1..] == rounds[i + 1..];
    assert Served(rounds[i..]) == [rounds[i]] + tail;
    assert ([rounds[i]] + tail)[1..] == tail;
  }

  // How a tick ends, from its n-th booking on.
  function EndFrom(p: Progress, bookings: seq<Row>, n: nat, now: int): (Progress, nat)
    requires n <= |bookings|
  {
    var (end, count) := RemindAll(p, bookings[n..], now);
    (end, n + count)
  }

  lemma EndFromStart(p: Progress, bookings: seq<Row>, now: int)
    ensures EndFrom(p, bookings, 0, now) == RemindAll(p, bookings, now)
  {
    assert bookings[0..] == bookings;
  }

  // The loop of a tick, one booking further.
  lemma EndFromNext(p: Progress, bookings: seq<Row>, n: nat, now: int)
    requires p.ok && n < |bookings|
    ensures var next := Remind(p, bookings[n], now);
            EndFrom(p, bookings, n, now) == if next.ok then EndFrom(next, bookings, n + 1, now) else (next, n)
  {
    assert bookings[n..][0] == bookings[n] && bookings[n..][1..] == bookings[n + 1..];
  }

  lemma EndFromEnd(p: Progress, bookings: seq<Row>, now: int)
    ensures EndFrom(p, bookings, |bookings|, now) == (p, |bookings|)
  {
  }

  class ReminderScheduler {
    const window: Window
    const outside: Surroundings
    var running: bool

    constructor (window: Window, outside: Surroundings)
      ensures this.window == window && this.outside == outside && !running
    {
      this.window, this.outside, this.running := window, outside, false;
    }

    // A failure leaves the rest undone, as an exception does.
    method SendReminder(b: Row) returns (ok: bool)
      modifies outside
      ensures Progress(outside.Snapshot(), ok, outside.replies) == Tell(old(outside.Fine()), b)
    {
      var recipients := [];
      if b.user.Some? {
        recipients := recipients + [Recipient(b.user.value, Organizer)];
      }
      if b.client.Some? {
        recipients := recipients + [Recipient(b.client.value, Client)];
      }
      assert recipients == Addressees(b);
      ok := outside.Publish(Command(b.uid, Dedupe.ReminderKey(b.uid), recipients));
      if ok && b.client.Some? {
        ok := outside.Publish(SentEvent(b.uid, Dedupe.ReminderSentKey(b.uid), b.client.value));
      }
    }

    // The body of the loop below.
    method SendAndMark(b: Row, now: int) returns (ok: bool)
      modifies outside
      ensures Progress(outside.Snapshot(), ok, outside.replies) == Remind(old(outside.Fine()), b, now)
    {
      ok := SendReminder(b);
      if ok {
        ok := outside.MarkReminderSent(b.uid, now);
      }
    }

    method SendReminders(now: int) returns (count: nat, ok: bool)
      modifies outside
      ensures (Progress(outside.Snapshot(), ok, outside.replies), count)
              == Tick(old(outside.Snapshot()), window, now, old(outside.replies))
    {
      count := 0;
      var bookings;
      bookings, ok := outside.GetBookings(window, now);
      if ok {
        count, ok := SendEach(bookings, now);
      }
    }

    // The loop of a tick.
    method SendEach(bookings: seq<Row>, now: int) returns (count: nat, ok: bool)
      modifies outside
      ensures (Progress(outside.Snapshot(), ok, outside.replies), count) == RemindAll(old(outside.Fine()), bookings, now)
    {
      count, ok := 0, true;
      ghost var p := outside.Fine();
      EndFromStart(p, bookings, now);
      ghost var all := EndFrom(p, bookings, 0, now);
      while count < |bookings| && ok
        invariant count <= |bookings|
        invariant p == Progress(outside.Snapshot(), ok, outside.replies)
        invariant all == if ok then EndFrom(p, bookings, count, now) else (p, count)
        decreases |bookings| - count, ok
      {
        EndFromNext(p, bookings, count, now);
        p := Remind(p, bookings[count], now);
        ok := SendAndMark(bookings[count], now);
        if ok {
          count := count + 1;
        }
      }
      if ok {
        EndFromEnd(p, bookings, now);
      }
    }

    method Stop()
      modifies this`running
      ensures !running
    {
      running := false;
    }

    // Sleep, tick, swallow any failure. While the scheduler sleeps its surroundings move on.
    method SleepAndSend(round: Round)
      requires outside as object != this
      modifies this`running, outside
      ensures outside.Snapshot() == PlayOne(old(outside.Snapshot()), window, round)
      ensures running == (old(running) && !round.stops)
    {
      if round.stops {
        Stop();
      }
      outside.rows, outside.replies := round.rows, round.replies;
      var count, ok := SendReminders(round.now);
    }

    // Repeat until stopped; rounds says what happens meanwhile.
    method RunForever(rounds: seq<Round>)
      requires outside as object != this
      modifies this`running, outside
      ensures outside.Snapshot() == Play(old(outside.Snapshot()), window, Served(rounds))
      ensures running <==> forall i :: 0 <= i < |rounds| ==> !rounds[i].stops
    {
      running := true;
      var i := 0;
      ghost var final := Play(outside.Snapshot(), window, Served(rounds));
      assert rounds[0..] == rounds;
      while running && i < |rounds|
        invariant i <= |rounds|
        invariant final == if running then Play(outside.Snapshot(), window, Served(rounds[i..])) else outside.Snapshot()
        invariant running <==> forall j :: 0 <= j < i ==> !rounds[j].stops
        decreases |rounds| - i
      {
        ServedNext(outside.Snapshot(), window, rounds, i);
        SleepAndSend(rounds[i]);
        i := i + 1;
      }
    }
  }
}
