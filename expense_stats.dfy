/** The statistics panel: total, average and number of the expenses in the active period. */
module ExpenseStats {
  import opened Expenses
  import opened Periods
  import opened Sequences

  /** The three figures the panel shows. */
  datatype Stats = Stats(total: real, average: real, count: nat)

  /** The average times the count gives the total whenever the count is not zero. */
  predicate AverageConsistent(s: Stats) {
    s.count > 0 ==> s.average * s.count as real == s.total
  }

  /** Total, average guarded against an empty list, and count of a list of expenses. */
  function Summarize(subset: seq<Expense>): (s: Stats)
    ensures s.count == |subset|
    ensures s.total == Total(subset)
    ensures AverageConsistent(s)
    ensures s.count == 0 ==> s == Stats(0.0, 0.0, 0)
  {
    var total := Total(subset);
    var count := |subset|;
    Stats(total, if count > 0 then total / count as real else 0.0, count)
  }

  /** `getCurrentStats` and the figures derived from it: the full list is filtered by the
      period's boundary for this clock reading, then summarised. */
  function CurrentStats(es: seq<Expense>, period: Period, clock: Clock): (s: Stats)
    ensures s.count == |Since(es, Boundary(period, clock))|
    ensures s.total == Total(Since(es, Boundary(period, clock)))
    ensures s.count <= |es|
    ensures s.count == 0 ==> s == Stats(0.0, 0.0, 0)
    ensures AverageConsistent(s)
  {
    var boundary := Boundary(period, clock);
    SinceIsSubsequence(es, boundary);
    SubsequenceLength(Since(es, boundary), es);
    Summarize(Since(es, boundary))
  }

  /** With no negative amounts, the panel's total lies between zero and the total of the
      whole list. */
  lemma CurrentTotalWithinTotal(es: seq<Expense>, period: Period, clock: Clock)
    requires forall i :: 0 <= i < |es| ==> es[i].amount >= 0.0
    ensures 0.0 <= CurrentStats(es, period, clock).total <= Total(es)
  {
    SinceTotalAtMost(es, Boundary(period, clock));
  }

  /** The average lies between the smallest and the largest amount. */
  lemma AverageWithinBounds(subset: seq<Expense>, lo: real, hi: real)
    requires subset != []
    requires forall i :: 0 <= i < |subset| ==> lo <= subset[i].amount <= hi
    ensures lo <= Summarize(subset).average <= hi
  {
    var s := Summarize(subset);
    var n := |subset| as real;
    TotalBounds(subset, lo, hi);
    ScaledCompare(lo, s.average, n);
    ScaledCompare(s.average, hi, n);
  }

  /** Multiplying both sides by the same positive count keeps their order. */
  lemma ScaledCompare(a: real, b: real, n: real)
    requires n > 0.0
    ensures a * n <= b * n ==> a <= b
  {
    if a > b {
      assert (a - b) * n > 0.0;
    }
  }

  /** For one clock reading, the daily panel counts no more entries than the monthly one,
      and, when no amount is negative, shows no larger total. */
  lemma DailyWithinMonthlyStats(es: seq<Expense>, clock: Clock)
    requires Consistent(clock)
    ensures CurrentStats(es, Daily, clock).count <= CurrentStats(es, Monthly, clock).count
    ensures (forall i :: 0 <= i < |es| ==> es[i].amount >= 0.0) ==>
      CurrentStats(es, Daily, clock).total <= CurrentStats(es, Monthly, clock).total
  {
    var monthly := Since(es, Boundary(Monthly, clock));
    DailyWithinMonthly(es, clock);
    if forall i :: 0 <= i < |es| ==> es[i].amount >= 0.0 {
      SinceKeepsMembers(es, Boundary(Monthly, clock));
      SinceTotalAtMost(monthly, Boundary(Daily, clock));
    }
  }
}
