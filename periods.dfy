/** The period filter used by both the home screen and the statistics panel: keep the
    expenses recorded at or after the start of the current day or month. */
module Periods {
  import opened Sequences
  import opened Expenses

  /** The two tabs of the home screen. */
  datatype Period = Daily | Monthly

  /** One reading of the wall clock, already turned into the two local-time boundaries
      (midnight today, midnight on the first of this month), in milliseconds. */
  datatype Clock = Clock(startOfDay: int, startOfMonth: int)

  /** Today began no earlier than the first of its month. */
  predicate Consistent(c: Clock) {
    c.startOfMonth <= c.startOfDay
  }

  /** The earliest timestamp a period keeps. */
  function Boundary(p: Period, c: Clock): (b: int)
    ensures Consistent(c) ==> c.startOfMonth <= b <= c.startOfDay
  {
    match p
    case Daily => c.startOfDay
    case Monthly => c.startOfMonth
  }

  /** `expenses.filter(e => e.timestamp >= boundary)`: every kept expense is at or after
      `boundary`; `SinceIsSubsequence` and `SinceCounts` say that the kept expenses are
      exactly those, in their original order and with their multiplicity. */
  function Since(es: seq<Expense>, boundary: int): (r: seq<Expense>)
    ensures forall i :: 0 <= i < |r| ==> r[i].timestamp >= boundary
    decreases |es|
  {
    if es == [] then []
    else
      var kept := Since(es[..|es| - 1], boundary);
      if es[|es| - 1].timestamp >= boundary then kept + [es[|es| - 1]] else kept
  }

  /** The filter keeps the order of the list. */
  lemma {:induction false} SinceIsSubsequence(es: seq<Expense>, boundary: int)
    ensures IsSubsequence(Since(es, boundary), es)
    decreases |es|
  {
    if es != [] {
      var init, last := es[..|es| - 1], es[|es| - 1];
      var kept := Since(init, boundary);
      SinceIsSubsequence(init, boundary);
      if last.timestamp >= boundary {
        assert (kept + [last])[..|kept + [last]| - 1] == kept;
      }
    }
  }

  /** Each expense is kept with its full multiplicity when it is at or after the
      boundary, and not at all otherwise. */
  lemma {:induction false} SinceCounts(es: seq<Expense>, boundary: int, e: Expense)
    ensures multiset(Since(es, boundary))[e] == if e.timestamp >= boundary then multiset(es)[e] else 0
    decreases |es|
  {
    if es != [] {
      var init, last := es[..|es| - 1], es[|es| - 1];
      assert es == init + [last];
      SinceCounts(init, boundary, e);
    }
  }

  /** Every kept expense comes from the original list. */
  lemma {:induction false} SinceKeepsMembers(es: seq<Expense>, boundary: int)
    ensures forall i :: 0 <= i < |Since(es, boundary)| ==> Since(es, boundary)[i] in es
    decreases |es|
  {
    if es != [] {
      var init, last := es[..|es| - 1], es[|es| - 1];
      SinceKeepsMembers(init, boundary);
      assert es == init + [last];
    }
  }

  /** Filtering distributes over concatenation. */
  lemma {:induction false} SinceAppend(a: seq<Expense>, b: seq<Expense>, boundary: int)
    ensures Since(a + b, boundary) == Since(a, boundary) + Since(b, boundary)
    decreases |b|
  {
    if b == [] {
      assert a + b == a;
    } else {
      assert (a + b)[..|a + b| - 1] == a + b[..|b| - 1];
      SinceAppend(a, b[..|b| - 1], boundary);
    }
  }

  /** Filtering with a later boundary after an earlier one is filtering with the later one. */
  lemma {:induction false} SinceNarrows(es: seq<Expense>, early: int, late: int)
    requires early <= late
    ensures Since(Since(es, early), late) == Since(es, late)
    decreases |es|
  {
    if es != [] {
      var init, last := es[..|es| - 1], es[|es| - 1];
      SinceNarrows(init, early, late);
      var kept := Since(init, early);
      if last.timestamp >= early {
        assert (kept + [last])[..|kept + [last]| - 1] == kept;
      }
    }
  }

  /** Filtering twice with the same boundary gives the same list as filtering once. */
  lemma SinceIdempotent(es: seq<Expense>, boundary: int)
    ensures Since(Since(es, boundary), boundary) == Since(es, boundary)
  {
    SinceNarrows(es, boundary, boundary);
  }

  /** For one clock reading, the daily list is a subsequence of the monthly list,
      obtained by filtering the monthly list again with the start of the day. */
  lemma DailyWithinMonthly(es: seq<Expense>, c: Clock)
    requires Consistent(c)
    ensures Since(Since(es, Boundary(Monthly, c)), Boundary(Daily, c)) == Since(es, Boundary(Daily, c))
    ensures IsSubsequence(Since(es, Boundary(Daily, c)), Since(es, Boundary(Monthly, c)))
    ensures |Since(es, Boundary(Daily, c))| <= |Since(es, Boundary(Monthly, c))|
  {
    var monthly := Since(es, Boundary(Monthly, c));
    SinceNarrows(es, Boundary(Monthly, c), Boundary(Daily, c));
    SinceIsSubsequence(monthly, Boundary(Daily, c));
    SubsequenceLength(Since(monthly, Boundary(Daily, c)), monthly);
  }

  /** With no negative amounts, filtering can only lower the total, and never below zero. */
  lemma {:induction false} SinceTotalAtMost(es: seq<Expense>, boundary: int)
    requires forall i :: 0 <= i < |es| ==> es[i].amount >= 0.0
    ensures 0.0 <= Total(Since(es, boundary)) <= Total(es)
    decreases |es|
  {
    if es != [] {
      var init, last := es[..|es| - 1], es[|es| - 1];
      SinceTotalAtMost(init, boundary);
      var kept := Since(init, boundary);
      if last.timestamp >= boundary {
        assert (kept + [last])[..|kept + [last]| - 1] == kept;
      }
    }
  }
}
