/** The pie chart: amounts grouped by category in order of first occurrence, one palette
    colour per group, the total spent, and the empty state. */
module ExpenseChart {
  import opened Wrappers
  import opened Sequences
  import opened Expenses
  import opened Currency

  /** The palette, used in turn. */
  const COLORS: seq<string> :=
    ["#2E7D32", "#1976D2", "#C2185B", "#7B1FA2", "#FBC02D", "#F57C00", "#455A64", "#00796B"]

  /** One pie segment. */
  datatype Slice = Slice(name: string, amount: real, color: string)

  /** What the component renders: the empty-state message, or the total and the pie. */
  datatype ChartView = EmptyState | Chart(symbol: string, totalSpent: real, slices: seq<Slice>)

  /** Some expense has category `c`. */
  predicate Occurs(es: seq<Expense>, c: string) {
    exists i :: 0 <= i < |es| && es[i].category == c
  }

  /** The keys of `categoryTotals` in insertion order: each category once, in the order in
      which it first appears. */
  function CategoryOrder(es: seq<Expense>): (r: seq<string>)
    ensures Distinct(r)
    ensures forall c :: c in r <==> Occurs(es, c)
    decreases |es|
  {
    if es == [] then []
    else
      var init := es[..|es| - 1];
      var c := es[|es| - 1].category;
      var prior := CategoryOrder(init);
      assert forall x :: Occurs(es, x) <==> Occurs(init, x) || x == c by {
        forall x ensures Occurs(es, x) <==> Occurs(init, x) || x == c {
          if Occurs(es, x) {
            var i :| 0 <= i < |es| && es[i].category == x;
            if i < |init| {
              assert init[i] == es[i];
            }
          }
          if Occurs(init, x) {
            var i :| 0 <= i < |init| && init[i].category == x;
            assert es[i] == init[i];
          }
        }
      }
      if c in prior then prior else prior + [c]
  }

  /** The sum of the amounts of the expenses with category `c`. */
  function CategorySum(es: seq<Expense>, c: string): real
    decreases |es|
  {
    if es == [] then 0.0
    else
      var last := es[|es| - 1];
      CategorySum(es[..|es| - 1], c) + (if last.category == c then last.amount else 0.0)
  }

  /** The position at which category `c` first appears. */
  function FirstIndex(es: seq<Expense>, c: string): (k: nat)
    requires Occurs(es, c)
    ensures k < |es| && es[k].category == c
    ensures forall j :: 0 <= j < k ==> es[j].category != c
    decreases |es|
  {
    var init := es[..|es| - 1];
    if Occurs(init, c) then
      var k := FirstIndex(init, c);
      assert forall j :: 0 <= j <= k ==> es[j] == init[j];
      k
    else
      assert forall j :: 0 <= j < |init| ==> es[j] == init[j];
      |es| - 1
  }

  /** The dictionary `categoryTotals`: its keys in insertion order and its values. */
  datatype CategoryTotals = CategoryTotals(order: seq<string>, amounts: map<string, real>)

  /** The dictionary the `reduce` builds. */
  function TotalsOf(es: seq<Expense>): (t: CategoryTotals)
    ensures t.order == CategoryOrder(es)
    ensures forall c :: c in t.amounts <==> Occurs(es, c)
  {
    var order := CategoryOrder(es);
    CategoryTotals(order, map c | c in order :: CategorySum(es, c))
  }

  /** The `reduce` over the expenses that adds each amount into the entry for its
      category, creating the entry (after the existing ones) when it is missing. */
  method BuildCategoryTotals(es: seq<Expense>) returns (t: CategoryTotals)
    ensures t == TotalsOf(es)
  {
    var order: seq<string> := [];
    var amounts: map<string, real> := map[];
    for i := 0 to |es|
      invariant order == CategoryOrder(es[..i])
      invariant forall c :: c in amounts <==> c in order
      invariant forall c :: c in amounts ==> amounts[c] == CategorySum(es[..i], c)
    {
      var e := es[i];
      assert es[..i + 1][..i] == es[..i] && es[..i + 1][i] == e;
      assert forall c :: (CategorySum(es[..i + 1], c) ==
                          CategorySum(es[..i], c) + (if e.category == c then e.amount else 0.0));
      var previous := if e.category in amounts then amounts[e.category] else 0.0;
      if e.category !in amounts {
        CategorySumAbsent(es[..i], e.category);
        order := order + [e.category];
      }
      amounts := amounts[e.category := previous + e.amount];
    }
    assert es[..|es|] == es;
    t := CategoryTotals(order, amounts);
  }

  /** `chartData`: one slice per dictionary entry, in order, the i-th coloured with the
      palette entry i modulo the palette's length. */
  function ChartData(t: CategoryTotals): (slices: seq<Slice>)
    requires forall c :: c in t.order ==> c in t.amounts
    ensures |slices| == |t.order|
    ensures forall i :: 0 <= i < |slices| ==>
      slices[i].name == t.order[i] && slices[i].amount == t.amounts[t.order[i]]
    ensures forall i :: 0 <= i < |slices| ==> slices[i].color == COLORS[i % |COLORS|]
  {
    seq(|t.order|, i requires 0 <= i < |t.order| =>
      Slice(t.order[i], t.amounts[t.order[i]], COLORS[i % |COLORS|]))
  }

  /** Consecutive slices up to the palette's length get different colours, and the colours
      repeat with period eight. */
  lemma ColorsCycle(t: CategoryTotals)
    requires forall c :: c in t.order ==> c in t.amounts
    ensures forall i, j :: 0 <= i < j < |ChartData(t)| && j < |COLORS| ==>
      ChartData(t)[i].color != ChartData(t)[j].color
    ensures forall i :: 0 <= i && i + |COLORS| < |ChartData(t)| ==>
      ChartData(t)[i].color == ChartData(t)[i + |COLORS|].color
  {
    var slices := ChartData(t);
    assert Distinct(COLORS);
    forall i, j | 0 <= i < j < |slices| && j < |COLORS|
      ensures slices[i].color != slices[j].color
    {
      assert i % |COLORS| == i && j % |COLORS| == j;
    }
    forall i | 0 <= i && i + |COLORS| < |slices|
      ensures slices[i].color == slices[i + |COLORS|].color
    {
      assert (i + |COLORS|) % |COLORS| == i % |COLORS|;
    }
  }

  /** Sum of the slice amounts. */
  function SliceSum(slices: seq<Slice>): real
    decreases |slices|
  {
    if slices == [] then 0.0 else SliceSum(slices[..|slices| - 1]) + slices[|slices| - 1].amount
  }

  /** Sum, over a list of categories, of each category's total. */
  function SumByCategory(es: seq<Expense>, cats: seq<string>): real
    decreases |cats|
  {
    if cats == [] then 0.0
    else SumByCategory(es, cats[..|cats| - 1]) + CategorySum(es, cats[|cats| - 1])
  }

  /** A category that does not occur sums to zero. */
  lemma {:induction false} CategorySumAbsent(es: seq<Expense>, c: string)
    requires !Occurs(es, c)
    ensures CategorySum(es, c) == 0.0
    decreases |es|
  {
    if es != [] {
      var init := es[..|es| - 1];
      assert forall i :: 0 <= i < |init| ==> init[i] == es[i];
      CategorySumAbsent(init, c);
    }
  }

  /** Appending one expense adds its amount to the sum over distinct categories exactly
      when its category is among them. */
  lemma {:induction false} SumByCategorySnoc(es: seq<Expense>, e: Expense, cats: seq<string>)
    requires Distinct(cats)
    ensures SumByCategory(es + [e], cats)
            == SumByCategory(es, cats) + (if e.category in cats then e.amount else 0.0)
    decreases |cats|
  {
    if cats != [] {
      var init := cats[..|cats| - 1];
      var c := cats[|cats| - 1];
      assert Distinct(init);
      assert (es + [e])[..|es + [e]| - 1] == es;
      SumByCategorySnoc(es, e, init);
      assert e.category in cats <==> e.category in init || e.category == c;
      assert c !in init;
    }
  }

  /** The category totals add up to the total of all expenses (in exact arithmetic). */
  lemma {:induction false} CategoryTotalsAddUp(es: seq<Expense>)
    ensures SumByCategory(es, CategoryOrder(es)) == Total(es)
    decreases |es|
  {
    if es != [] {
      var init, e := es[..|es| - 1], es[|es| - 1];
      assert es == init + [e];
      var prior := CategoryOrder(init);
      CategoryTotalsAddUp(init);
      SumByCategorySnoc(init, e, prior);
      if e.category !in prior {
        CategorySumAbsent(init, e.category);
        assert (prior + [e.category])[..|prior|] == prior;
      }
    }
  }

  /** The slices built from the category totals add up to the sum over their categories. */
  lemma {:induction false} SliceSumByCategory(es: seq<Expense>, order: seq<string>, amounts: map<string, real>)
    requires forall c :: c in order ==> c in amounts && amounts[c] == CategorySum(es, c)
    ensures SliceSum(ChartData(CategoryTotals(order, amounts))) == SumByCategory(es, order)
    decreases |order|
  {
    if order != [] {
      var init := order[..|order| - 1];
      var slices := ChartData(CategoryTotals(order, amounts));
      assert slices[..|slices| - 1] == ChartData(CategoryTotals(init, amounts));
      SliceSumByCategory(es, init, amounts);
    }
  }

  /** A category already present before the last expense keeps its first position. */
  lemma FirstIndexOfPrefix(es: seq<Expense>, c: string)
    requires es != [] && Occurs(es[..|es| - 1], c)
    ensures FirstIndex(es, c) == FirstIndex(es[..|es| - 1], c)
  {
  }

  /** The slices come in order of first occurrence of their categories. */
  lemma {:induction false} OrderIsFirstOccurrence(es: seq<Expense>)
    ensures forall i, j :: 0 <= i < j < |CategoryOrder(es)| ==>
      FirstIndex(es, CategoryOrder(es)[i]) < FirstIndex(es, CategoryOrder(es)[j])
    decreases |es|
  {
    if es != [] {
      var init, c := es[..|es| - 1], es[|es| - 1].category;
      var prior := CategoryOrder(init);
      var order := CategoryOrder(es);
      assert order == if c in prior then prior else prior + [c];
      OrderIsFirstOccurrence(init);
      forall i, j | 0 <= i < j < |order|
        ensures FirstIndex(es, order[i]) < FirstIndex(es, order[j])
      {
        assert order[i] == prior[i] && prior[i] in prior;
        FirstIndexOfPrefix(es, prior[i]);
        if j < |prior| {
          assert order[j] == prior[j] && prior[j] in prior;
          FirstIndexOfPrefix(es, prior[j]);
        } else {
          assert order[j] == c && !Occurs(init, c);
        }
      }
    }
  }

  /** The chart component: the empty state for an empty list; otherwise the currency
      symbol, the total spent and one slice per distinct category, in order of first
      occurrence, each carrying its category's total, the slices adding up to the total. */
  function Render(es: seq<Expense>, currency: Option<string>): (v: ChartView)
    ensures v.EmptyState? <==> es == []
    ensures v.Chart? ==> v.symbol == ChartSymbol(currency) && v.totalSpent == Total(es)
    ensures v.Chart? ==> |v.slices| == |CategoryOrder(es)|
    ensures v.Chart? ==> forall i :: 0 <= i < |v.slices| ==>
      v.slices[i].name == CategoryOrder(es)[i] && v.slices[i].amount == CategorySum(es, v.slices[i].name)
    ensures v.Chart? ==> SliceSum(v.slices) == v.totalSpent
  {
    if |es| == 0 then EmptyState
    else
      var t := TotalsOf(es);
      SliceSumByCategory(es, t.order, t.amounts);
      CategoryTotalsAddUp(es);
      Chart(ChartSymbol(currency), Total(es), ChartData(t))
  }
}
