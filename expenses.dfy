/** The expense record shared by the form, the home screen, the statistics and the chart. */
module Expenses {

  /** One recorded spending event. `timestamp` is in milliseconds since the epoch;
      amounts are exact reals (the app itself uses floating point). */
  datatype Expense = Expense(id: string, amount: real, category: string, timestamp: int)

  /** The labels offered by the form's category picker. */
  const DEFAULT_CATEGORIES: seq<string> :=
    ["Food", "Groceries", "Transport", "Shopping", "Entertainment", "Health", "Bills", "Other"]

  /** Sum of the amounts, folded from the left starting at 0 like `reduce((sum, e) => sum + e.amount, 0)`. */
  function Total(es: seq<Expense>): (t: real)
    decreases |es|
  {
    if es == [] then 0.0 else Total(es[..|es| - 1]) + es[|es| - 1].amount
  }

  /** With no negative amount the total is not negative. */
  lemma {:induction false} TotalNonNegative(es: seq<Expense>)
    requires forall i :: 0 <= i < |es| ==> es[i].amount >= 0.0
    ensures Total(es) >= 0.0
    decreases |es|
  {
    if es != [] {
      TotalNonNegative(es[..|es| - 1]);
    }
  }

  /** The total of a concatenation is the sum of the totals. */
  lemma {:induction false} TotalAppend(a: seq<Expense>, b: seq<Expense>)
    ensures Total(a + b) == Total(a) + Total(b)
    decreases |b|
  {
    if b == [] {
      assert a + b == a;
    } else {
      assert (a + b)[..|a + b| - 1] == a + b[..|b| - 1];
      TotalAppend(a, b[..|b| - 1]);
    }
  }

  /** With every amount between `lo` and `hi`, the total lies between n*lo and n*hi. */
  lemma {:induction false} TotalBounds(es: seq<Expense>, lo: real, hi: real)
    requires forall i :: 0 <= i < |es| ==> lo <= es[i].amount <= hi
    ensures lo * |es| as real <= Total(es) <= hi * |es| as real
    decreases |es|
  {
    if es != [] {
      var n := |es| - 1;
      TotalBounds(es[..n], lo, hi);
      assert lo * |es| as real == lo * n as real + lo;
      assert hi * |es| as real == hi * n as real + hi;
    }
  }
}
