/** The constraints at work over time: bookings appear, are validated (repeatedly, when deliveries
    are redelivered), cancelled, and the clock moves on. */
module ConstraintGate {
  import opened Wrappers
  import opened Constraints
  import opened Email

  // validated: the last delivery of the booking's creation let it through.
  datatype Row = Row(email: string, start: int, status: string, validated: bool)

  // The normal form the query gives a stored address, and the one the adapter gives the client's.
  datatype Forms = Forms(sql: string -> string, python: string -> string)

  const ADDRESS_FORMS := Forms(SqlForm, PythonForm)

  datatype Gate = Gate(rows: map<int, Row>, now: int)

  datatype Action =
    | Insert(id: int, email: string, start: int, status: string)
    | Deliver(id: int, blacklisted: bool, history: seq<AttendeeBooking>)
    | Cancel(id: int, status: string)
    | Tick(elapsed: nat)

  // The query's WHERE clause.
  predicate Matches(f: Forms, rows: map<int, Row>, id: int, other: int)
    requires id in rows && other in rows
  {
    other != id && f.sql(rows[other].email) == f.python(rows[id].email)
  }

  function AsHistory(rows: map<int, Row>, id: int): AttendeeBooking
    requires id in rows
  {
    AttendeeBooking(id, rows[id].start, rows[id].status)
  }

  // The query returns all matching rows, in any order; rows of further attendees may be among them.
  ghost predicate Enabled(f: Forms, g: Gate, a: Action) {
    match a
    case Insert(id, _, _, _) => id !in g.rows
    case Deliver(id, _, history) =>
      id in g.rows ==> forall other | other in g.rows && Matches(f, g.rows, id, other) ::
        AsHistory(g.rows, other) in history
    case Cancel(_, status) => !Occupies(status)
    case Tick(_) => true
  }

  function Act(cal: Calendar, g: Gate, a: Action): Gate {
    match a
    case Insert(id, email, start, status) => g.(rows := g.rows[id := Row(email, start, status, false)])
    case Deliver(id, blacklisted, history) =>
      if id !in g.rows then g
      else if blacklisted || !AnalyzeOnCreate(cal, id, g.rows[id].start, history, g.now).isAllowed then
        g.(rows := g.rows[id := g.rows[id].(status := "rejected", validated := false)])
      else g.(rows := g.rows[id := g.rows[id].(validated := true)])
    case Cancel(id, status) => if id in g.rows then g.(rows := g.rows[id := g.rows[id].(status := status)]) else g
    case Tick(elapsed) => g.(now := g.now + elapsed)
  }

  function Run(cal: Calendar, g: Gate, actions: seq<Action>): Gate
    decreases actions
  {
    if actions == [] then g else Run(cal, Act(cal, g, actions[0]), actions[1..])
  }

  ghost predicate AllEnabled(f: Forms, cal: Calendar, g: Gate, actions: seq<Action>)
    decreases actions
  {
    actions != [] ==> Enabled(f, g, actions[0]) && AllEnabled(f, cal, Act(cal, g, actions[0]), actions[1..])
  }

  // ----- The invariant -----

  // The client's validated, active bookings.
  function Standing(f: Forms, g: Gate, client: string): set<int> {
    set id | id in g.rows && f.python(g.rows[id].email) == client && g.rows[id].validated
             && Occupies(g.rows[id].status)
  }

  function StandingInMonth(f: Forms, cal: Calendar, g: Gate, client: string, t: int): set<int> {
    set id | id in Standing(f, g, client) && cal.year(g.rows[id].start) == cal.year(t)
             && cal.month(g.rows[id].start) == cal.month(t)
  }

  function StandingInYear(f: Forms, cal: Calendar, g: Gate, client: string, t: int): set<int> {
    set id | id in Standing(f, g, client) && cal.year(g.rows[id].start) == cal.year(t)
  }

  predicate Apart(start: int, start2: int) {
    start + 7 * 86_400_000_000 <= start2 || start2 + 7 * 86_400_000_000 <= start
  }

  ghost predicate Limits(f: Forms, cal: Calendar, g: Gate, client: string) {
    && (forall id, id2 | id in Standing(f, g, client) && id2 in Standing(f, g, client) && id != id2 ::
          Apart(g.rows[id].start, g.rows[id2].start))
    && (forall id, id2 | id in Standing(f, g, client) && id2 in Standing(f, g, client) && id != id2 ::
          g.rows[id].start <= g.now || g.rows[id2].start <= g.now)
    && (forall t :: |StandingInMonth(f, cal, g, client, t)| <= 2)
    && (forall t :: |StandingInYear(f, cal, g, client, t)| <= 10)
  }

  // The query finds every address that is the client's.
  predicate Findable(f: Forms, client: string, email: string) {
    f.python(email) == client ==> f.sql(email) == client
  }

  // The client's addresses in the table are found; nothing is asked of other clients' rows.
  predicate OneForm(f: Forms, g: Gate, client: string) {
    forall id | id in g.rows :: Findable(f, client, g.rows[id].email)
  }

  // ----- It is kept -----

  lemma Member<T>(s: set<T>) returns (x: T)
    requires s != {}
    ensures x in s
  {
    x :| x in s;
  }

  // Different ids stand at different positions.
  lemma {:induction false} IdsWithinPositions(ids: set<int>, history: seq<AttendeeBooking>, positions: set<int>)
    requires forall k | k in positions :: 0 <= k < |history|
    requires forall id | id in ids :: exists k :: k in positions && history[k].bookingId == id
    ensures |ids| <= |positions|
  {
    if ids != {} {
      var id := Member(ids);
      var k :| k in positions && history[k].bookingId == id;
      forall other | other in ids - {id} ensures exists j :: j in positions - {k} && history[j].bookingId == other {
        var j :| j in positions && history[j].bookingId == other;
        assert j in positions - {k};
      }
      IdsWithinPositions(ids - {id}, history, positions - {k});
    }
  }

  lemma SmallerSet(small: set<int>, large: set<int>)
    requires small <= large
    ensures |small| <= |large|
  {
    assert large == small + (large - small);
  }

  // Fewer bookings standing, later clock: the limits stay.
  lemma LimitsShrink(f: Forms, cal: Calendar, g: Gate, g': Gate, client: string)
    requires Limits(f, cal, g, client) && g.now <= g'.now
    requires Standing(f, g', client) <= Standing(f, g, client)
    requires forall id | id in Standing(f, g', client) :: g'.rows[id].start == g.rows[id].start
    ensures Limits(f, cal, g', client)
  {
    forall t ensures |StandingInMonth(f, cal, g', client, t)| <= 2 {
      forall id | id in StandingInMonth(f, cal, g', client, t) ensures id in StandingInMonth(f, cal, g, client, t) {
        assert id in Standing(f, g', client) && id in Standing(f, g, client);
      }
      SmallerSet(StandingInMonth(f, cal, g', client, t), StandingInMonth(f, cal, g, client, t));
    }
    forall t ensures |StandingInYear(f, cal, g', client, t)| <= 10 {
      forall id | id in StandingInYear(f, cal, g', client, t) ensures id in StandingInYear(f, cal, g, client, t) {
        assert id in Standing(f, g', client) && id in Standing(f, g, client);
      }
      SmallerSet(StandingInYear(f, cal, g', client, t), StandingInYear(f, cal, g, client, t));
    }
  }

  // A standing booking of the same client is among the active rows of the history.
  lemma StandingIsInHistory(f: Forms, g: Gate, id: int, history: seq<AttendeeBooking>, other: int)
    requires id in g.rows && OneForm(f, g, f.python(g.rows[id].email)) && Enabled(f, g, Deliver(id, false, history))
    requires other in Standing(f, g, f.python(g.rows[id].email)) && other != id
    ensures var a := AsHistory(g.rows, other); a in history && IsActive(id, a)
  {
    assert Matches(f, g.rows, id, other);
  }

  // The client's other standing bookings leave room for this one.
  ghost predicate RoomFor(f: Forms, cal: Calendar, g: Gate, id: int)
    requires id in g.rows
  {
    var client, start := f.python(g.rows[id].email), g.rows[id].start;
    && (forall other | other in Standing(f, g, client) && other != id ::
          g.rows[other].start <= g.now && g.rows[other].start + 7 * 86_400_000_000 <= start)
    && |StandingInMonth(f, cal, g, client, start) - {id}| < 2
    && |StandingInYear(f, cal, g, client, start) - {id}| < 10
  }

  lemma AllowedHasRoom(f: Forms, cal: Calendar, g: Gate, id: int, history: seq<AttendeeBooking>)
    requires id in g.rows && OneForm(f, g, f.python(g.rows[id].email)) && Enabled(f, g, Deliver(id, false, history))
    requires AnalyzeOnCreate(cal, id, g.rows[id].start, history, g.now).isAllowed
    ensures RoomFor(f, cal, g, id)
  {
    var client, start := f.python(g.rows[id].email), g.rows[id].start;
    AnalyzerMeetsSpec(cal, id, start, history, g.now);
    RowsAreWhere(cal, id, start, history);
    forall other | other in Standing(f, g, client) && other != id
      ensures g.rows[other].start <= g.now && g.rows[other].start + 7 * 86_400_000_000 <= start
    {
      StandingIsInHistory(f, g, id, history, other);
      assert AsHistory(g.rows, other).start == g.rows[other].start;
    }
    CountedInHistory(f, g, id, history, StandingInMonth(f, cal, g, client, start) - {id}, InMonth(cal, start));
    CountedInHistory(f, g, id, history, StandingInYear(f, cal, g, client, start) - {id}, InYear(cal, start));
  }

  lemma CountedInHistory(f: Forms, g: Gate, id: int, history: seq<AttendeeBooking>, ids: set<int>,
                         p: AttendeeBooking -> bool)
    requires id in g.rows && OneForm(f, g, f.python(g.rows[id].email)) && Enabled(f, g, Deliver(id, false, history))
    requires forall other | other in ids ::
               other in Standing(f, g, f.python(g.rows[id].email)) && other != id && p(AsHistory(g.rows, other))
    ensures |ids| <= |Where(id, history, p)|
  {
    var positions := Where(id, history, p);
    forall other | other in ids ensures exists k :: k in positions && history[k].bookingId == other {
      StandingIsInHistory(f, g, id, history, other);
      var k :| 0 <= k < |history| && history[k] == AsHistory(g.rows, other);
      assert k in positions;
    }
    IdsWithinPositions(ids, history, positions);
  }

  // One booking more standing, counted against the others of its month, or not of that month.
  lemma OneMoreInMonth(f: Forms, cal: Calendar, g: Gate, g': Gate, id: int, client: string, t: int)
    requires id in g.rows && Standing(f, g', client) <= Standing(f, g, client) + {id}
    requires forall other | other in Standing(f, g', client) ::
               other in g.rows && g'.rows[other].start == g.rows[other].start
    requires |StandingInMonth(f, cal, g, client, t)| <= 2
    requires |StandingInMonth(f, cal, g, client, g.rows[id].start) - {id}| < 2
    ensures |StandingInMonth(f, cal, g', client, t)| <= 2
  {
    var now := StandingInMonth(f, cal, g', client, t);
    if cal.year(g.rows[id].start) == cal.year(t) && cal.month(g.rows[id].start) == cal.month(t) {
      var others := StandingInMonth(f, cal, g, client, g.rows[id].start) - {id};
      assert now - {id} <= others by {
        forall other | other in now - {id} ensures other in others {
          assert other in Standing(f, g', client) && other in Standing(f, g, client);
        }
      }
      SmallerSet(now, others + {id});
    } else {
      assert now <= StandingInMonth(f, cal, g, client, t) by {
        forall other | other in now ensures other in StandingInMonth(f, cal, g, client, t) {
          assert other in Standing(f, g', client) && other != id;
        }
      }
      SmallerSet(now, StandingInMonth(f, cal, g, client, t));
    }
  }

  lemma OneMoreInYear(f: Forms, cal: Calendar, g: Gate, g': Gate, id: int, client: string, t: int)
    requires id in g.rows && Standing(f, g', client) <= Standing(f, g, client) + {id}
    requires forall other | other in Standing(f, g', client) ::
               other in g.rows && g'.rows[other].start == g.rows[other].start
    requires |StandingInYear(f, cal, g, client, t)| <= 10
    requires |StandingInYear(f, cal, g, client, g.rows[id].start) - {id}| < 10
    ensures |StandingInYear(f, cal, g', client, t)| <= 10
  {
    var now := StandingInYear(f, cal, g', client, t);
    if cal.year(g.rows[id].start) == cal.year(t) {
      var others := StandingInYear(f, cal, g, client, g.rows[id].start) - {id};
      assert now - {id} <= others by {
        forall other | other in now - {id} ensures other in others {
          assert other in Standing(f, g', client) && other in Standing(f, g, client);
        }
      }
      SmallerSet(now, others + {id});
    } else {
      assert now <= StandingInYear(f, cal, g, client, t) by {
        forall other | other in now ensures other in StandingInYear(f, cal, g, client, t) {
          assert other in Standing(f, g', client) && other != id;
        }
      }
      SmallerSet(now, StandingInYear(f, cal, g, client, t));
    }
  }

  lemma StandingAfterValidation(f: Forms, g: Gate, g': Gate, id: int, client: string)
    requires id in g.rows && g' == g.(rows := g.rows[id := g.rows[id].(validated := true)])
    ensures Standing(f, g', client)
            <= Standing(f, g, client) + if f.python(g.rows[id].email) == client then {id} else {}
    ensures forall other | other in Standing(f, g', client) ::
              other in g.rows && g'.rows[other].start == g.rows[other].start
  {
  }

  lemma PairsAfterValidation(f: Forms, cal: Calendar, g: Gate, g': Gate, id: int, client: string)
    requires id in g.rows && g' == g.(rows := g.rows[id := g.rows[id].(validated := true)])
    requires f.python(g.rows[id].email) == client && RoomFor(f, cal, g, id) && Limits(f, cal, g, client)
    ensures forall a, b | a in Standing(f, g', client) && b in Standing(f, g', client) && a != b ::
              Apart(g'.rows[a].start, g'.rows[b].start) && (g'.rows[a].start <= g'.now || g'.rows[b].start <= g'.now)
  {
    StandingAfterValidation(f, g, g', id, client);
    forall a, b | a in Standing(f, g', client) && b in Standing(f, g', client) && a != b
      ensures Apart(g'.rows[a].start, g'.rows[b].start) && (g'.rows[a].start <= g'.now || g'.rows[b].start <= g'.now)
    {
      assert a != id ==> a in Standing(f, g, client);
      assert b != id ==> b in Standing(f, g, client);
    }
  }

  lemma ValidatedKeepsLimits(f: Forms, cal: Calendar, g: Gate, g': Gate, id: int, client: string)
    requires id in g.rows && g' == g.(rows := g.rows[id := g.rows[id].(validated := true)])
    requires (f.python(g.rows[id].email) == client ==> RoomFor(f, cal, g, id)) && Limits(f, cal, g, client)
    ensures Limits(f, cal, g', client)
  {
    StandingAfterValidation(f, g, g', id, client);
    if f.python(g.rows[id].email) == client {
      PairsAfterValidation(f, cal, g, g', id, client);
      forall t ensures |StandingInMonth(f, cal, g', client, t)| <= 2 {
        OneMoreInMonth(f, cal, g, g', id, client, t);
      }
      forall t ensures |StandingInYear(f, cal, g', client, t)| <= 10 {
        OneMoreInYear(f, cal, g, g', id, client, t);
      }
    } else {
      LimitsShrink(f, cal, g, g', client);
    }
  }

  predicate InsertsOneForm(f: Forms, a: Action, client: string) { a.Insert? ==> Findable(f, client, a.email) }

  // A row that is not validated or not active changes no one's limits.
  lemma IdleRowKeepsLimits(f: Forms, cal: Calendar, g: Gate, id: int, row: Row, client: string)
    requires OneForm(f, g, client) && Limits(f, cal, g, client)
    requires Findable(f, client, row.email) && (!row.validated || !Occupies(row.status))
    ensures var g' := g.(rows := g.rows[id := row]); OneForm(f, g', client) && Limits(f, cal, g', client)
  {
    LimitsShrink(f, cal, g, g.(rows := g.rows[id := row]), client);
  }

  lemma DeliverKeepsLimits(f: Forms, cal: Calendar, g: Gate, id: int, blacklisted: bool,
                           history: seq<AttendeeBooking>, client: string)
    requires OneForm(f, g, client) && Limits(f, cal, g, client) && Enabled(f, g, Deliver(id, blacklisted, history))
    ensures var g' := Act(cal, g, Deliver(id, blacklisted, history)); OneForm(f, g', client) && Limits(f, cal, g', client)
  {
    if id !in g.rows {
    } else if !blacklisted && AnalyzeOnCreate(cal, id, g.rows[id].start, history, g.now).isAllowed {
      if f.python(g.rows[id].email) == client {
        AllowedHasRoom(f, cal, g, id, history);
      }
      var g' := g.(rows := g.rows[id := g.rows[id].(validated := true)]);
      ValidatedKeepsLimits(f, cal, g, g', id, client);
    } else {
      IdleRowKeepsLimits(f, cal, g, id, g.rows[id].(status := "rejected", validated := false), client);
    }
  }

  lemma InsertKeepsLimits(f: Forms, cal: Calendar, g: Gate, id: int, email: string, start: int, status: string,
                          client: string)
    requires OneForm(f, g, client) && Limits(f, cal, g, client) && Findable(f, client, email)
    ensures var g' := Act(cal, g, Insert(id, email, start, status)); OneForm(f, g', client) && Limits(f, cal, g', client)
  {
    IdleRowKeepsLimits(f, cal, g, id, Row(email, start, status, false), client);
  }

  lemma CancelKeepsLimits(f: Forms, cal: Calendar, g: Gate, id: int, status: string, client: string)
    requires OneForm(f, g, client) && Limits(f, cal, g, client) && !Occupies(status)
    ensures var g' := Act(cal, g, Cancel(id, status)); OneForm(f, g', client) && Limits(f, cal, g', client)
  {
    if id in g.rows {
      IdleRowKeepsLimits(f, cal, g, id, g.rows[id].(status := status), client);
    }
  }

  lemma LaterShrinks(f: Forms, cal: Calendar, g: Gate, elapsed: nat, client: string)
    requires OneForm(f, g, client) && Limits(f, cal, g, client)
    ensures var g' := g.(now := g.now + elapsed); OneForm(f, g', client) && Limits(f, cal, g', client)
  {
    var g' := g.(now := g.now + elapsed);
    assert Standing(f, g', client) == Standing(f, g, client);
    LimitsShrink(f, cal, g, g', client);
  }

  lemma TickKeepsLimits(f: Forms, cal: Calendar, g: Gate, elapsed: nat, client: string)
    requires OneForm(f, g, client) && Limits(f, cal, g, client)
    ensures var g' := Act(cal, g, Tick(elapsed)); OneForm(f, g', client) && Limits(f, cal, g', client)
  {
    LaterShrinks(f, cal, g, elapsed, client);
    assert Act(cal, g, Tick(elapsed)) == g.(now := g.now + elapsed);
  }

  lemma ActKeepsLimits(f: Forms, cal: Calendar, g: Gate, a: Action, client: string)
    requires OneForm(f, g, client) && Limits(f, cal, g, client) && Enabled(f, g, a) && InsertsOneForm(f, a, client)
    ensures OneForm(f, Act(cal, g, a), client) && Limits(f, cal, Act(cal, g, a), client)
  {
    match a
    case Insert(id, email, start, status) => InsertKeepsLimits(f, cal, g, id, email, start, status, client);
    case Deliver(id, blacklisted, history) => DeliverKeepsLimits(f, cal, g, id, blacklisted, history, client);
    case Cancel(id, status) => CancelKeepsLimits(f, cal, g, id, status, client);
    case Tick(elapsed) => TickKeepsLimits(f, cal, g, elapsed, client);
  }

  // Main theorem: the limits hold for a client throughout every run, whatever addresses others have.
  lemma {:induction false} LimitsHoldAlways(f: Forms, cal: Calendar, g: Gate, actions: seq<Action>, client: string)
    requires OneForm(f, g, client) && Limits(f, cal, g, client)
    requires AllEnabled(f, cal, g, actions) && forall a | a in actions :: InsertsOneForm(f, a, client)
    ensures Limits(f, cal, Run(cal, g, actions), client)
    decreases actions
  {
    if actions != [] {
      assert actions[0] in actions && forall a | a in actions[1..] :: a in actions;
      ActKeepsLimits(f, cal, g, actions[0], client);
      LimitsHoldAlways(f, cal, Act(cal, g, actions[0]), actions[1..], client);
    }
  }

  // ----- Where they do not -----

  const EMPTY := Gate(map[], 0)

  lemma EmptyIsWithinLimits(f: Forms, cal: Calendar, client: string)
    ensures OneForm(f, EMPTY, client) && Limits(f, cal, EMPTY, client)
  {
    assert Standing(f, EMPTY, client) == {};
    forall t ensures StandingInMonth(f, cal, EMPTY, client, t) == {}
             ensures StandingInYear(f, cal, EMPTY, client, t) == {}
    {
    }
  }

  lemma NoHistoryAllows(cal: Calendar, id: int, start: int, now: int)
    ensures AnalyzeOnCreate(cal, id, start, [], now).isAllowed
  {
  }

  // Two bookings at one time under an address whose forms differ: the query finds neither for the other.
  lemma DifferentFormsSlipThrough(f: Forms, cal: Calendar, email: string) returns (actions: seq<Action>)
    requires f.sql(email) != f.python(email)
    ensures AllEnabled(f, cal, EMPTY, actions) && forall a | a in actions :: a.Insert? ==> a.email == email
    ensures !Limits(f, cal, Run(cal, EMPTY, actions), f.python(email))
  {
    var a1, a2, a3, a4 := Insert(1, email, 0, "accepted"), Insert(2, email, 0, "accepted"), Deliver(1, false, []),
      Deliver(2, false, []);
    NoHistoryAllows(cal, 1, 0, 0);
    NoHistoryAllows(cal, 2, 0, 0);
    var g1 := Act(cal, EMPTY, a1);
    var g2 := Act(cal, g1, a2);
    var g3 := Act(cal, g2, a3);
    var g4 := Act(cal, g3, a4);
    FourSteps(f, cal, EMPTY, a1, a2, a3, a4);
    actions := [a1, a2, a3, a4];
    assert 1 in Standing(f, g4, f.python(email)) && 2 in Standing(f, g4, f.python(email));
    assert !Apart(g4.rows[1].start, g4.rows[2].start);
  }

  lemma FourSteps(f: Forms, cal: Calendar, g: Gate, a1: Action, a2: Action, a3: Action, a4: Action)
    ensures var g1 := Act(cal, g, a1); var g2 := Act(cal, g1, a2); var g3 := Act(cal, g2, a3);
            && Run(cal, g, [a1, a2, a3, a4]) == Act(cal, g3, a4)
            && (AllEnabled(f, cal, g, [a1, a2, a3, a4]) <==>
                  Enabled(f, g, a1) && Enabled(f, g1, a2) && Enabled(f, g2, a3) && Enabled(f, g3, a4))
  {
    var g1 := Act(cal, g, a1);
    var g2 := Act(cal, g1, a2);
    var g3 := Act(cal, g2, a3);
    assert [a1, a2, a3, a4][1..] == [a2, a3, a4] && [a2, a3, a4][1..] == [a3, a4];
    assert [a3, a4][1..] == [a4] && [a4][1..] == [];
    assert Run(cal, g, [a1, a2, a3, a4]) == Run(cal, g1, [a2, a3, a4]) == Run(cal, g2, [a3, a4]) == Run(cal, g3, [a4])
        == Run(cal, Act(cal, g3, a4), []);
    assert AllEnabled(f, cal, g3, [a4]) <==> Enabled(f, g3, a4);
    assert AllEnabled(f, cal, g2, [a3, a4]) <==> Enabled(f, g2, a3) && AllEnabled(f, cal, g3, [a4]);
    assert AllEnabled(f, cal, g1, [a2, a3, a4]) <==> Enabled(f, g1, a2) && AllEnabled(f, cal, g2, [a3, a4]);
  }

  ghost predicate Inserts(addresses: iset<string>, actions: seq<Action>) {
    forall a | a in actions && a.Insert? :: a.email in addresses
  }

  // No run over these addresses breaks the client's limits.
  ghost predicate Enforced(f: Forms, cal: Calendar, addresses: iset<string>, client: string) {
    forall actions: seq<Action> | AllEnabled(f, cal, EMPTY, actions) && Inserts(addresses, actions) ::
      Limits(f, cal, Run(cal, EMPTY, actions), client)
  }

  // Main theorem on addresses: over any set of addresses, a client's limits are enforced in every run
  // if and only if the query's form of each of the client's addresses is the client's.
  lemma LimitsHoldIffFindable(f: Forms, cal: Calendar, addresses: iset<string>, client: string)
    ensures Enforced(f, cal, addresses, client) <==> forall e | e in addresses :: Findable(f, client, e)
  {
    if forall e | e in addresses :: Findable(f, client, e) {
      forall actions: seq<Action> | AllEnabled(f, cal, EMPTY, actions) && Inserts(addresses, actions)
        ensures Limits(f, cal, Run(cal, EMPTY, actions), client)
      {
        EmptyIsWithinLimits(f, cal, client);
        LimitsHoldAlways(f, cal, EMPTY, actions, client);
      }
    } else {
      var e :| e in addresses && !Findable(f, client, e);
      var actions := DifferentFormsSlipThrough(f, cal, e);
      assert Inserts(addresses, actions);
    }
  }

  // The same for the service's two forms, in terms of the addresses alone: each address of the client's
  // is trimmed and has no tag, or one that both forms take off.
  lemma LimitsHoldIffFormsAgree(cal: Calendar, addresses: iset<string>, client: string)
    ensures Enforced(ADDRESS_FORMS, cal, addresses, client) <==>
            forall e | e in addresses && PythonForm(e) == client :: FormsAgree(e)
  {
    LimitsHoldIffFindable(ADDRESS_FORMS, cal, addresses, client);
    forall e | PythonForm(e) == client ensures Findable(ADDRESS_FORMS, client, e) <==> FormsAgree(e) {
      FormsAgreeExactly(e);
    }
  }

  lemma OneOfTwoSlipsThrough(cal: Calendar, plain: string, tagged: string)
    requires FormsAgree(plain) && !FormsAgree(tagged) && PythonForm(tagged) == PythonForm(plain)
    ensures !Enforced(ADDRESS_FORMS, cal, iset{plain, tagged}, PythonForm(plain))
    ensures Enforced(ADDRESS_FORMS, cal, iset{plain}, PythonForm(plain))
  {
    LimitsHoldIffFormsAgree(cal, iset{plain, tagged}, PythonForm(plain));
    LimitsHoldIffFormsAgree(cal, iset{plain}, PythonForm(plain));
    assert tagged in iset{plain, tagged};
  }

  // An address with an empty tag slips through even beside an ordinary one of the same client.
  lemma EmptyTagSlipsThrough(cal: Calendar, local: string, domain: string)
    requires Trimmed(local + "@" + domain) && !Has(local, '@') && !Has(local, '+') && !Has(domain, '+')
    ensures var plain, tagged := local + "@" + domain, (local + "+") + "@" + domain;
            !Enforced(ADDRESS_FORMS, cal, iset{plain, tagged}, PythonForm(plain))
            && Enforced(ADDRESS_FORMS, cal, iset{plain}, PythonForm(plain))
  {
    var plain, tagged := local + "@" + domain, (local + "+") + "@" + domain;
    EmptyTagIsAnotherAddress(local, domain);
    OneOfTwoSlipsThrough(cal, plain, tagged);
  }
}
