/** The booking constraints analyzer, and a declarative specification of its verdict. Instants are
    microseconds; the calendar is any pair of year and month functions on instants. */
module Constraints {
  import opened Wrappers

  const MIN_DAYS_BETWEEN_BOOKINGS := 7
  const MAX_BOOKINGS_PER_MONTH := 2
  const MAX_BOOKINGS_PER_YEAR := 10
  const ACTIVE_STATUSES := {"accepted", "pending", "awaiting_host"}
  const DAY := 24 * 60 * 60 * 1_000_000

  datatype Calendar = Calendar(year: int -> int, month: int -> int)

  datatype AttendeeBooking = AttendeeBooking(bookingId: int, start: int, status: string)

  datatype RejectionType = MonthLimit | YearLimit | MinInterval

  datatype ConstraintsResult = ConstraintsResult(
    isAllowed: bool,
    availableFrom: Option<int>,
    hasActiveBooking: bool,
    activeBookingStart: Option<int>,
    rejectionType: Option<RejectionType>)

  const ALLOWED := ConstraintsResult(true, None, false, None, None)

  function Rejection(kind: RejectionType, availableFrom: Option<int>): ConstraintsResult {
    ConstraintsResult(false, availableFrom, false, None, Some(kind))
  }

  // ----- The analyzer, as the source computes it -----

  function Filter(s: seq<AttendeeBooking>, p: AttendeeBooking -> bool): seq<AttendeeBooking> {
    if s == [] then [] else (if p(s[0]) then [s[0]] else []) + Filter(s[1..], p)
  }

  predicate SameMonth(cal: Calendar, t: int, start: int) {
    cal.year(t) == cal.year(start) && cal.month(t) == cal.month(start)
  }

  // max(..., key=start): the first of the latest ones.
  function Latest(active: seq<AttendeeBooking>): (r: AttendeeBooking)
    requires active != []
    ensures r in active && forall a | a in active :: a.start <= r.start
  {
    if |active| == 1 then active[0]
    else
      var best := Latest(active[1..]);
      if active[0].start >= best.start then active[0] else best
  }

  // timedelta.days: floor division, also for negative differences.
  function Days(delta: int): int { delta / DAY }

  function OtherThan(bookingId: int): AttendeeBooking -> bool { (a: AttendeeBooking) => a.bookingId != bookingId }

  function HasActiveStatus(): AttendeeBooking -> bool { (a: AttendeeBooking) => a.status in ACTIVE_STATUSES }

  function After(now: int): AttendeeBooking -> bool { (a: AttendeeBooking) => a.start > now }

  function InMonth(cal: Calendar, start: int): AttendeeBooking -> bool {
    (a: AttendeeBooking) => SameMonth(cal, a.start, start)
  }

  function InYear(cal: Calendar, start: int): AttendeeBooking -> bool {
    (a: AttendeeBooking) => cal.year(a.start) == cal.year(start)
  }

  function ActiveOf(bookingId: int, history: seq<AttendeeBooking>): seq<AttendeeBooking> {
    Filter(Filter(history, OtherThan(bookingId)), HasActiveStatus())
  }

  // The rules in their order, on the future bookings, the two counts and the latest start.
  function Rules(start: int, futureActive: seq<AttendeeBooking>, inMonth: nat, inYear: nat, latest: Option<int>)
    : ConstraintsResult
  {
    if futureActive != [] then ConstraintsResult(false, None, true, Some(futureActive[0].start), None)
    else if inMonth >= MAX_BOOKINGS_PER_MONTH then Rejection(MonthLimit, None)
    else if inYear >= MAX_BOOKINGS_PER_YEAR then Rejection(YearLimit, None)
    else if latest.Some? && Days(start - latest.value) < MIN_DAYS_BETWEEN_BOOKINGS then
      Rejection(MinInterval, Some(latest.value + MIN_DAYS_BETWEEN_BOOKINGS * DAY))
    else ALLOWED
  }

  function LatestStart(active: seq<AttendeeBooking>): Option<int> {
    if active == [] then None else Some(Latest(active).start)
  }

  function Judge(cal: Calendar, start: int, active: seq<AttendeeBooking>, now: int): ConstraintsResult {
    Rules(start, Filter(active, After(now)), |Filter(active, InMonth(cal, start))|,
          |Filter(active, InYear(cal, start))|,
          LatestStart(active))
  }

  function AnalyzeOnCreate(cal: Calendar, bookingId: int, start: int, history: seq<AttendeeBooking>, now: int)
    : ConstraintsResult
  {
    Judge(cal, start, ActiveOf(bookingId, history), now)
  }

  // ----- Its specification, in numbers and on positions in the history -----

  // The bookings that count: a pending one, and one that awaits its host, as much as an accepted one.
  predicate Occupies(status: string) { status == "accepted" || status == "pending" || status == "awaiting_host" }

  predicate IsActive(bookingId: int, a: AttendeeBooking) { a.bookingId != bookingId && Occupies(a.status) }

  function MonthRows(cal: Calendar, bookingId: int, start: int, history: seq<AttendeeBooking>): set<int> {
    set i | 0 <= i < |history| && IsActive(bookingId, history[i])
            && cal.year(history[i].start) == cal.year(start) && cal.month(history[i].start) == cal.month(start)
  }

  function YearRows(cal: Calendar, bookingId: int, start: int, history: seq<AttendeeBooking>): set<int> {
    set i | 0 <= i < |history| && IsActive(bookingId, history[i]) && cal.year(history[i].start) == cal.year(start)
  }

  predicate NoneAfter(bookingId: int, history: seq<AttendeeBooking>, now: int) {
    forall a | a in history && IsActive(bookingId, a) :: a.start <= now
  }

  predicate FewInMonth(cal: Calendar, bookingId: int, start: int, history: seq<AttendeeBooking>) {
    |MonthRows(cal, bookingId, start, history)| < 2
  }

  predicate FewInYear(cal: Calendar, bookingId: int, start: int, history: seq<AttendeeBooking>) {
    |YearRows(cal, bookingId, start, history)| < 10
  }

  // Seven days.
  predicate Spaced(bookingId: int, start: int, history: seq<AttendeeBooking>) {
    forall a | a in history && IsActive(bookingId, a) :: a.start + 7 * 86_400_000_000 <= start
  }

  // The positions of the active bookings other than the one under validation that satisfy p.
  function Where(bookingId: int, history: seq<AttendeeBooking>, p: AttendeeBooking -> bool): set<int> {
    set i | 0 <= i < |history| && IsActive(bookingId, history[i]) && p(history[i])
  }

  lemma RowsAreWhere(cal: Calendar, bookingId: int, start: int, history: seq<AttendeeBooking>)
    ensures MonthRows(cal, bookingId, start, history) == Where(bookingId, history, InMonth(cal, start))
    ensures YearRows(cal, bookingId, start, history) == Where(bookingId, history, InYear(cal, start))
  {
  }

  lemma {:induction false} FilterConcat(s: seq<AttendeeBooking>, t: seq<AttendeeBooking>, p: AttendeeBooking -> bool)
    ensures Filter(s + t, p) == Filter(s, p) + Filter(t, p)
  {
    if s == [] {
      assert s + t == t;
    } else {
      assert (s + t)[1..] == s[1..] + t;
      FilterConcat(s[1..], t, p);
      Associate(if p(s[0]) then [s[0]] else [], Filter(s[1..], p), Filter(t, p));
    }
  }

  lemma Associate(a: seq<AttendeeBooking>, b: seq<AttendeeBooking>, c: seq<AttendeeBooking>)
    ensures a + (b + c) == a + b + c
  {
  }

  lemma {:induction false} FilterMembers(s: seq<AttendeeBooking>, p: AttendeeBooking -> bool, x: AttendeeBooking)
    ensures x in Filter(s, p) <==> x in s && p(x)
  {
    if s != [] {
      FilterMembers(s[1..], p, x);
    }
  }

  lemma PositionsSplit(s: seq<AttendeeBooking>, p: AttendeeBooking -> bool, n: nat)
    requires |s| == n + 1
    ensures |set i | 0 <= i < |s| && p(s[i])| == |set i | 0 <= i < n && p(s[..n][i])| + if p(s[n]) then 1 else 0
  {
    var here, there := (set i | 0 <= i < |s| && p(s[i])), (set i | 0 <= i < n && p(s[..n][i]));
    assert here == there + if p(s[n]) then {n} else {};
    assert n !in there;
  }

  // Counting by filtering is counting positions.
  lemma {:induction false} FilterCounts(s: seq<AttendeeBooking>, p: AttendeeBooking -> bool)
    ensures |Filter(s, p)| == |set i | 0 <= i < |s| && p(s[i])|
  {
    if s != [] {
      var n := |s| - 1;
      var front, last := s[..n], [s[n]];
      FilterCounts(front, p);
      assert s == front + last;
      FilterConcat(front, last, p);
      PositionsSplit(s, p, n);
    }
  }

  function ActiveAnd(bookingId: int, p: AttendeeBooking -> bool): AttendeeBooking -> bool {
    (a: AttendeeBooking) => IsActive(bookingId, a) && p(a)
  }

  // Filtering in turn is filtering at once.
  lemma {:induction false} ActiveFilter(bookingId: int, history: seq<AttendeeBooking>, p: AttendeeBooking -> bool)
    ensures Filter(ActiveOf(bookingId, history), p) == Filter(history, ActiveAnd(bookingId, p))
  {
    if history != [] {
      ActiveFilter(bookingId, history[1..], p);
      var rest := Filter(history[1..], OtherThan(bookingId));
      var a := history[0];
      if OtherThan(bookingId)(a) {
        assert ([a] + rest)[1..] == rest;
        var tail := Filter(rest, HasActiveStatus());
        if HasActiveStatus()(a) {
          assert ([a] + tail)[1..] == tail;
        } else {
          assert [] + tail == tail;
        }
      } else {
        assert [] + rest == rest;
      }
    }
  }

  lemma CountsAgree(bookingId: int, history: seq<AttendeeBooking>, p: AttendeeBooking -> bool)
    ensures |Filter(ActiveOf(bookingId, history), p)| == |Where(bookingId, history, p)|
  {
    var all := ActiveAnd(bookingId, p);
    ActiveFilter(bookingId, history, p);
    FilterCounts(history, all);
    var positions := set i | 0 <= i < |history| && all(history[i]);
    assert Where(bookingId, history, p) == positions;
  }

  lemma ActiveMembers(bookingId: int, history: seq<AttendeeBooking>)
    ensures forall a :: a in ActiveOf(bookingId, history) <==> a in history && IsActive(bookingId, a)
  {
    forall a ensures a in ActiveOf(bookingId, history) <==> a in history && IsActive(bookingId, a) {
      FilterMembers(history, OtherThan(bookingId), a);
      FilterMembers(Filter(history, OtherThan(bookingId)), HasActiveStatus(), a);
    }
  }

  lemma DaysBelowWeek(delta: int)
    ensures Days(delta) < MIN_DAYS_BETWEEN_BOOKINGS <==> delta < MIN_DAYS_BETWEEN_BOOKINGS * DAY
  {
  }

  lemma FutureRule(bookingId: int, history: seq<AttendeeBooking>, now: int)
    ensures NoneAfter(bookingId, history, now) <==> Filter(ActiveOf(bookingId, history), After(now)) == []
  {
    var active := ActiveOf(bookingId, history);
    ActiveMembers(bookingId, history);
    if Filter(active, After(now)) != [] {
      var a := Filter(active, After(now))[0];
      FilterMembers(active, After(now), a);
      assert a in Filter(active, After(now)) && a in active;
    } else {
      forall a | a in history && IsActive(bookingId, a) ensures a.start <= now {
        FilterMembers(active, After(now), a);
      }
    }
  }

  // The interval rule on the latest start, without days.
  lemma SpacedFromLatest(bookingId: int, t: int, history: seq<AttendeeBooking>)
    requires ActiveOf(bookingId, history) != []
    ensures Spaced(bookingId, t, history) <==>
            Latest(ActiveOf(bookingId, history)).start + 7 * 86_400_000_000 <= t
  {
    ActiveMembers(bookingId, history);
  }

  lemma SpacedFromNone(bookingId: int, t: int, history: seq<AttendeeBooking>)
    requires ActiveOf(bookingId, history) == []
    ensures Spaced(bookingId, t, history)
  {
    ActiveMembers(bookingId, history);
  }

  lemma RulesOnActive(bookingId: int, start: int, history: seq<AttendeeBooking>, now: int)
    ensures var active := ActiveOf(bookingId, history);
            && (NoneAfter(bookingId, history, now) <==> Filter(active, After(now)) == [])
            && (Spaced(bookingId, start, history) <==>
                  (active == [] || Days(start - Latest(active).start) >= MIN_DAYS_BETWEEN_BOOKINGS))
  {
    FutureRule(bookingId, history, now);
    if ActiveOf(bookingId, history) != [] {
      SpacedFromLatest(bookingId, start, history);
      DaysBelowWeek(start - Latest(ActiveOf(bookingId, history)).start);
    } else {
      SpacedFromNone(bookingId, start, history);
    }
  }

  // Main theorem: the rules in their order, the first violated one deciding.
  lemma AnalyzerMeetsSpec(cal: Calendar, bookingId: int, start: int, history: seq<AttendeeBooking>, now: int)
    ensures var r := AnalyzeOnCreate(cal, bookingId, start, history, now);
            && (r.isAllowed <==> NoneAfter(bookingId, history, now) && FewInMonth(cal, bookingId, start, history)
                                 && FewInYear(cal, bookingId, start, history) && Spaced(bookingId, start, history))
            && (r.hasActiveBooking <==> !NoneAfter(bookingId, history, now))
            && (r.rejectionType == Some(MonthLimit) <==>
                  NoneAfter(bookingId, history, now) && !FewInMonth(cal, bookingId, start, history))
            && (r.rejectionType == Some(YearLimit) <==>
                  NoneAfter(bookingId, history, now) && FewInMonth(cal, bookingId, start, history)
                  && !FewInYear(cal, bookingId, start, history))
            && (r.rejectionType == Some(MinInterval) <==>
                  NoneAfter(bookingId, history, now) && FewInMonth(cal, bookingId, start, history)
                  && FewInYear(cal, bookingId, start, history) && !Spaced(bookingId, start, history))
            && (r.availableFrom.Some? ==> r.rejectionType == Some(MinInterval))
            && (r.activeBookingStart.Some? <==> r.hasActiveBooking)
            && (r.isAllowed ==> r == ALLOWED)
  {
    RowsAreWhere(cal, bookingId, start, history);
    CountsAgree(bookingId, history, InMonth(cal, start));
    CountsAgree(bookingId, history, InYear(cal, start));
    RulesOnActive(bookingId, start, history, now);
  }

  // Any other booking that is accepted, pending or awaiting its host and starts after now rejects, whatever
  // else is in the history; a row of another status never does.
  lemma StatusesThatReject(cal: Calendar, bookingId: int, start: int, history: seq<AttendeeBooking>, now: int)
    ensures AnalyzeOnCreate(cal, bookingId, start, history, now).hasActiveBooking <==>
            exists a :: a in history && a.bookingId != bookingId && a.start > now
                        && (a.status == "accepted" || a.status == "pending" || a.status == "awaiting_host")
    ensures AnalyzeOnCreate(cal, bookingId, start, history, now).hasActiveBooking ==>
            !AnalyzeOnCreate(cal, bookingId, start, history, now).isAllowed
    ensures (forall a | a in history && a.bookingId != bookingId ::
               a.status != "accepted" && a.status != "pending" && a.status != "awaiting_host") ==>
            AnalyzeOnCreate(cal, bookingId, start, history, now).isAllowed
  {
    AnalyzerMeetsSpec(cal, bookingId, start, history, now);
    if forall a | a in history && a.bookingId != bookingId ::
         a.status != "accepted" && a.status != "pending" && a.status != "awaiting_host"
    {
      forall i | 0 <= i < |history| ensures !IsActive(bookingId, history[i]) {
        assert history[i] in history;
      }
      assert MonthRows(cal, bookingId, start, history) == {} && YearRows(cal, bookingId, start, history) == {};
    }
  }

  lemma {:induction false} FilterFirst(s: seq<AttendeeBooking>, p: AttendeeBooking -> bool) returns (i: nat)
    requires Filter(s, p) != []
    ensures i < |s| && s[i] == Filter(s, p)[0] && p(s[i]) && forall j :: 0 <= j < i ==> !p(s[j])
  {
    i := 0;
    if !p(s[0]) {
      assert Filter(s, p) == Filter(s[1..], p);
      i := FilterFirst(s[1..], p);
      assert forall j :: 0 < j < i + 1 ==> s[j] == s[1..][j - 1];
      i := i + 1;
    }
  }

  // What is reported is the start of the first other active booking after now, in the order of the rows.
  lemma ActiveStartIsFuture(cal: Calendar, bookingId: int, start: int, history: seq<AttendeeBooking>, now: int)
    returns (i: nat)
    requires AnalyzeOnCreate(cal, bookingId, start, history, now).hasActiveBooking
    ensures i < |history| && IsActive(bookingId, history[i]) && history[i].start > now
    ensures forall j :: 0 <= j < i ==> !(IsActive(bookingId, history[j]) && history[j].start > now)
    ensures AnalyzeOnCreate(cal, bookingId, start, history, now).activeBookingStart == Some(history[i].start)
  {
    ActiveFilter(bookingId, history, After(now));
    i := FilterFirst(history, ActiveAnd(bookingId, After(now)));
    assert forall j :: 0 <= j < i ==> !ActiveAnd(bookingId, After(now))(history[j]);
  }

  lemma IntervalRejection(start: int, futureActive: seq<AttendeeBooking>, inMonth: nat, inYear: nat,
                          latest: Option<int>)
    requires Rules(start, futureActive, inMonth, inYear, latest).rejectionType == Some(MinInterval)
    ensures latest.Some? && start < latest.value + MIN_DAYS_BETWEEN_BOOKINGS * DAY
    ensures Rules(start, futureActive, inMonth, inYear, latest).availableFrom
            == Some(latest.value + MIN_DAYS_BETWEEN_BOOKINGS * DAY)
  {
    DaysBelowWeek(start - latest.value);
  }

  // On an interval rejection, availableFrom is after the requested start, and the least start that
  // keeps the distance to every active booking.
  lemma AvailableFromIsExact(cal: Calendar, bookingId: int, start: int, history: seq<AttendeeBooking>, now: int, t: int)
    requires AnalyzeOnCreate(cal, bookingId, start, history, now).rejectionType == Some(MinInterval)
    ensures var from := AnalyzeOnCreate(cal, bookingId, start, history, now).availableFrom;
            from.Some? && start < from.value && (Spaced(bookingId, t, history) <==> from.value <= t)
  {
    var active := ActiveOf(bookingId, history);
    IntervalRejection(start, Filter(active, After(now)), |Filter(active, InMonth(cal, start))|,
                      |Filter(active, InYear(cal, start))|, LatestStart(active));
    SpacedFromLatest(bookingId, t, history);
  }

  // ----- How verdicts of different histories compare -----

  // What does not depend on the order of rows: all but which future booking is reported.
  predicate SameVerdict(r: ConstraintsResult, r2: ConstraintsResult) {
    r.(activeBookingStart := None) == r2.(activeBookingStart := None)
  }

  lemma {:induction false} FilterMultiplicity(s: seq<AttendeeBooking>, p: AttendeeBooking -> bool, x: AttendeeBooking)
    ensures multiset(Filter(s, p))[x] == if p(x) then multiset(s)[x] else 0
  {
    if s != [] {
      FilterMultiplicity(s[1..], p, x);
      assert s == [s[0]] + s[1..];
    }
  }

  lemma PermutedCounts(s: seq<AttendeeBooking>, s2: seq<AttendeeBooking>, p: AttendeeBooking -> bool)
    requires multiset(s) == multiset(s2)
    ensures |Filter(s, p)| == |Filter(s2, p)|
  {
    forall x ensures multiset(Filter(s, p))[x] == multiset(Filter(s2, p))[x] {
      FilterMultiplicity(s, p, x);
      FilterMultiplicity(s2, p, x);
    }
    assert multiset(Filter(s, p)) == multiset(Filter(s2, p));
    assert |multiset(Filter(s, p))| == |Filter(s, p)| && |multiset(Filter(s2, p))| == |Filter(s2, p)|;
  }

  lemma SameMembers(s: seq<AttendeeBooking>, s2: seq<AttendeeBooking>)
    requires multiset(s) == multiset(s2)
    ensures forall x :: x in s <==> x in s2
  {
    forall x ensures x in s <==> x in s2 {
      assert x in s <==> x in multiset(s);
      assert x in s2 <==> x in multiset(s2);
    }
  }

  lemma FutureInOther(active: seq<AttendeeBooking>, active2: seq<AttendeeBooking>, now: int)
    requires (forall a :: a in active <==> a in active2) && Filter(active, After(now)) != []
    ensures Filter(active2, After(now)) != []
  {
    var a := Filter(active, After(now))[0];
    assert a in Filter(active, After(now));
    FilterMembers(active, After(now), a);
    FilterMembers(active2, After(now), a);
  }

  // The verdict follows from the counts and the members.
  lemma VerdictFromRules(cal: Calendar, start: int, active: seq<AttendeeBooking>, active2: seq<AttendeeBooking>,
                         now: int)
    requires forall a :: a in active <==> a in active2
    requires |Filter(active, InMonth(cal, start))| == |Filter(active2, InMonth(cal, start))|
    requires |Filter(active, InYear(cal, start))| == |Filter(active2, InYear(cal, start))|
    ensures SameVerdict(Judge(cal, start, active, now), Judge(cal, start, active2, now))
  {
    if Filter(active, After(now)) != [] {
      FutureInOther(active, active2, now);
    } else if Filter(active2, After(now)) != [] {
      FutureInOther(active2, active, now);
    }
    SameLatest(active, active2);
    RulesAgree(start, Filter(active, After(now)), Filter(active2, After(now)), |Filter(active, InMonth(cal, start))|,
               |Filter(active, InYear(cal, start))|, LatestStart(active));
  }

  lemma RulesAgree(start: int, future: seq<AttendeeBooking>, future2: seq<AttendeeBooking>, inMonth: nat,
                   inYear: nat, latest: Option<int>)
    requires future == [] <==> future2 == []
    ensures SameVerdict(Rules(start, future, inMonth, inYear, latest), Rules(start, future2, inMonth, inYear, latest))
  {
  }

  lemma SameLatest(active: seq<AttendeeBooking>, active2: seq<AttendeeBooking>)
    requires forall a :: a in active <==> a in active2
    ensures active == [] <==> active2 == []
    ensures active != [] ==> Latest(active).start == Latest(active2).start
  {
    assert (set a | a in active) == (set a | a in active2);
    assert active != [] ==> active[0] in set a | a in active;
    assert active2 != [] ==> active2[0] in set a | a in active2;
    if active != [] && active2 != [] {
      assert Latest(active) in active2 && Latest(active2) in active;
    }
  }

  // The order of the rows, which the query leaves open, does not matter.
  lemma PermutationInvariant(cal: Calendar, bookingId: int, start: int, history: seq<AttendeeBooking>,
                             history2: seq<AttendeeBooking>, now: int)
    requires multiset(history) == multiset(history2)
    ensures SameVerdict(AnalyzeOnCreate(cal, bookingId, start, history, now),
                        AnalyzeOnCreate(cal, bookingId, start, history2, now))
  {
    SameMembers(history, history2);
    ActiveMembers(bookingId, history);
    ActiveMembers(bookingId, history2);
    ActiveFilter(bookingId, history, InMonth(cal, start));
    ActiveFilter(bookingId, history2, InMonth(cal, start));
    ActiveFilter(bookingId, history, InYear(cal, start));
    ActiveFilter(bookingId, history2, InYear(cal, start));
    PermutedCounts(history, history2, ActiveAnd(bookingId, InMonth(cal, start)));
    PermutedCounts(history, history2, ActiveAnd(bookingId, InYear(cal, start)));
    VerdictFromRules(cal, start, ActiveOf(bookingId, history), ActiveOf(bookingId, history2), now);
  }

  // The one thing that depends on the order is which future booking gets reported.
  lemma ReportedStartDependsOnOrder(cal: Calendar, bookingId: int, start: int, now: int)
    ensures var a, a2 := AttendeeBooking(bookingId + 1, now + 1, "accepted"),
      AttendeeBooking(bookingId + 1, now + 2, "accepted");
            AnalyzeOnCreate(cal, bookingId, start, [a, a2], now) != AnalyzeOnCreate(cal, bookingId, start, [a2, a], now)
  {
    var a, a2 := AttendeeBooking(bookingId + 1, now + 1, "accepted"),
      AttendeeBooking(bookingId + 1, now + 2, "accepted");
    AllPass([a, a2], bookingId, now);
    AllPass([a2, a], bookingId, now);
  }

  lemma AllPass(history: seq<AttendeeBooking>, bookingId: int, now: int)
    requires forall a | a in history :: IsActive(bookingId, a) && a.start > now
    ensures Filter(ActiveOf(bookingId, history), After(now)) == history
  {
    ActiveFilter(bookingId, history, After(now));
    AllKept(history, ActiveAnd(bookingId, After(now)));
  }

  lemma {:induction false} AllKept(s: seq<AttendeeBooking>, p: AttendeeBooking -> bool)
    requires forall x | x in s :: p(x)
    ensures Filter(s, p) == s
  {
    if s != [] {
      AllKept(s[1..], p);
    }
  }

  lemma {:induction false} NoneKept(s: seq<AttendeeBooking>, p: AttendeeBooking -> bool)
    requires forall x | x in s :: !p(x)
    ensures Filter(s, p) == []
  {
    if s != [] {
      NoneKept(s[1..], p);
    }
  }

  lemma ActiveOfConcat(bookingId: int, p: seq<AttendeeBooking>, q: seq<AttendeeBooking>)
    ensures ActiveOf(bookingId, p + q) == ActiveOf(bookingId, p) + ActiveOf(bookingId, q)
  {
    FilterConcat(p, q, OtherThan(bookingId));
    FilterConcat(Filter(p, OtherThan(bookingId)), Filter(q, OtherThan(bookingId)), HasActiveStatus());
  }

  lemma NoneActive(bookingId: int, extra: seq<AttendeeBooking>)
    requires forall a | a in extra :: !IsActive(bookingId, a)
    ensures ActiveOf(bookingId, extra) == []
  {
    var others := Filter(extra, OtherThan(bookingId));
    forall a | a in others ensures !HasActiveStatus()(a) {
      FilterMembers(extra, OtherThan(bookingId), a);
    }
    NoneKept(others, HasActiveStatus());
  }

  // The booking's own row and inactive rows never affect the result, wherever they stand.
  lemma IrrelevantRows(cal: Calendar, bookingId: int, start: int, before: seq<AttendeeBooking>,
                       extra: seq<AttendeeBooking>, after: seq<AttendeeBooking>, now: int)
    requires forall a | a in extra :: !IsActive(bookingId, a)
    ensures AnalyzeOnCreate(cal, bookingId, start, before + extra + after, now)
            == AnalyzeOnCreate(cal, bookingId, start, before + after, now)
  {
    ActiveOfConcat(bookingId, before + extra, after);
    ActiveOfConcat(bookingId, before, extra);
    ActiveOfConcat(bookingId, before, after);
    NoneActive(bookingId, extra);
    var active := ActiveOf(bookingId, before);
    assert active + [] == active;
    assert ActiveOf(bookingId, before + extra + after) == ActiveOf(bookingId, before + after);
  }

  // More bookings never turn a rejection into an allowance.
  lemma AddingNeverAllows(cal: Calendar, bookingId: int, start: int, before: seq<AttendeeBooking>,
                          extra: seq<AttendeeBooking>, after: seq<AttendeeBooking>, now: int)
    requires AnalyzeOnCreate(cal, bookingId, start, before + extra + after, now).isAllowed
    ensures AnalyzeOnCreate(cal, bookingId, start, before + after, now).isAllowed
  {
    AnalyzerMeetsSpec(cal, bookingId, start, before + extra + after, now);
    AnalyzerMeetsSpec(cal, bookingId, start, before + after, now);
    RowsAreWhere(cal, bookingId, start, before + extra + after);
    RowsAreWhere(cal, bookingId, start, before + after);
    FewerCounted(bookingId, before, extra, after, InMonth(cal, start));
    FewerCounted(bookingId, before, extra, after, InYear(cal, start));
  }

  lemma FewerCounted(bookingId: int, before: seq<AttendeeBooking>, extra: seq<AttendeeBooking>,
                     after: seq<AttendeeBooking>, p: AttendeeBooking -> bool)
    ensures |Where(bookingId, before + after, p)| <= |Where(bookingId, before + extra + after, p)|
  {
    var all := ActiveAnd(bookingId, p);
    CountsAgree(bookingId, before + after, p);
    CountsAgree(bookingId, before + extra + after, p);
    ActiveFilter(bookingId, before + after, p);
    ActiveFilter(bookingId, before + extra + after, p);
    FilterConcat(before + extra, after, all);
    FilterConcat(before, extra, all);
    FilterConcat(before, after, all);
  }
}
