/** The home screen's session state and handlers: the expense list, the active tab and the
    currency code. The `@expenses` storage entry is a field; whether a storage call
    succeeds is an argument of the handler, and the wall clock is a `Clock` argument. */
module HomeScreen {
  import opened Wrappers
  import opened Expenses
  import opened Periods
  import opened Sequences
  import ExpenseStats
  import ExpenseChart
  import ProfileScreen
  import ExpenseForm

  /** The list a storage entry holds, an absent entry counting as empty. */
  function StoredList(stored: Option<seq<Expense>>): seq<Expense> {
    stored.GetOr([])
  }

  class Home {
    /** All expenses, newest first. */
    var expenses: seq<Expense>
    var activeTab: Period
    var selectedCurrency: string
    /** The `@expenses` storage entry. */
    var stored: Option<seq<Expense>>

    /** The in-memory list is what storage holds. */
    ghost predicate InSync()
      reads this
    {
      expenses == StoredList(stored)
    }

    /** The screen before anything is loaded. */
    constructor (stored: Option<seq<Expense>>)
      ensures expenses == [] && activeTab == Daily && selectedCurrency == "EUR"
      ensures this.stored == stored
    {
      expenses := [];
      activeTab := Daily;
      selectedCurrency := "EUR";
      this.stored := stored;
    }

    /** `loadExpenses`: a stored list replaces the in-memory one; no stored list, or a
        failed read, leaves the in-memory list as it was. */
    method LoadExpenses(readOk: bool)
      modifies this`expenses
      ensures readOk && stored.Some? ==> expenses == stored.value && InSync()
      ensures !(readOk && stored.Some?) ==> expenses == old(expenses)
    {
      if readOk && stored.Some? {
        expenses := stored.value;
      }
    }

    /** `loadCurrency`: `read` is the `@selectedCurrency` entry (None when absent or when
        the read fails); only a non-empty code replaces the current one. */
    method LoadCurrency(read: Option<string>)
      modifies this`selectedCurrency
      ensures selectedCurrency == if read.Some? && read.value != "" then read.value else old(selectedCurrency)
    {
      if read.Some? && read.value != "" {
        selectedCurrency := read.value;
      }
    }

    /** `handleAddExpense`: the expense goes in front of the list, then the whole list is
        written; a failed write is not rolled back. */
    method AddExpense(e: Expense, writeOk: bool)
      modifies this`expenses, this`stored
      ensures expenses == [e] + old(expenses)
      ensures stored == if writeOk then Some(expenses) else old(stored)
      ensures writeOk ==> InSync()
      ensures activeTab == old(activeTab) && selectedCurrency == old(selectedCurrency)
    {
      expenses := [e] + expenses;
      if writeOk {
        stored := Some(expenses);
      }
    }

    /** `handleClearAll`: the storage entry is removed first; only when that succeeds is
        the in-memory list emptied. */
    method ClearAll(removeOk: bool)
      modifies this`expenses, this`stored
      ensures removeOk ==> expenses == [] && stored == None && InSync()
      ensures !removeOk ==> expenses == old(expenses) && stored == old(stored)
    {
      if removeOk {
        stored := None;
        expenses := [];
      }
    }

    /** `handleTabChange`: only the active tab changes. */
    method TabChange(tab: Period)
      modifies this`activeTab
      ensures activeTab == tab
    {
      activeTab := tab;
    }

    /** `getCurrentExpenses`: the expenses of the active period, in list order. */
    function CurrentExpenses(clock: Clock): (current: seq<Expense>)
      reads this
      ensures IsSubsequence(current, expenses) && |current| <= |expenses|
      ensures forall i :: 0 <= i < |current| ==> current[i].timestamp >= Boundary(activeTab, clock)
      ensures forall e :: multiset(current)[e]
                          == if e.timestamp >= Boundary(activeTab, clock) then multiset(expenses)[e] else 0
    {
      var boundary := Boundary(activeTab, clock);
      SinceIsSubsequence(expenses, boundary);
      SubsequenceLength(Since(expenses, boundary), expenses);
      forall e ensures multiset(Since(expenses, boundary))[e]
                       == if e.timestamp >= boundary then multiset(expenses)[e] else 0 {
        SinceCounts(expenses, boundary, e);
      }
      Since(expenses, boundary)
    }

    /** The statistics panel, which is given the full list and filters it itself. */
    function StatsPanel(clock: Clock): ExpenseStats.Stats
      reads this
    {
      ExpenseStats.CurrentStats(expenses, activeTab, clock)
    }

    /** The chart, which is given the already filtered list. */
    function ChartPanel(clock: Clock): ExpenseChart.ChartView
      reads this
    {
      ExpenseChart.Render(CurrentExpenses(clock), Some(selectedCurrency))
    }
  }

  /** A new expense shows first in the current list when it is inside the period, and the
      rest of the current list is unchanged. */
  lemma AddedExpenseInCurrentList(es: seq<Expense>, e: Expense, boundary: int)
    ensures Since([e] + es, boundary)
            == (if e.timestamp >= boundary then [e] else []) + Since(es, boundary)
  {
    SinceAppend([e], es, boundary);
    assert [e][..0] == [];
  }

  /** For one clock reading, the statistics panel (filtering the full list) and the chart
      (given the filtered list) agree: the chart is empty exactly when the count is zero,
      and otherwise its total and the sum of its slices equal the panel's total. */
  lemma PanelsAgree(home: Home, clock: Clock)
    ensures home.ChartPanel(clock).EmptyState? <==> home.StatsPanel(clock).count == 0
    ensures home.ChartPanel(clock).Chart? ==>
      && home.ChartPanel(clock).totalSpent == home.StatsPanel(clock).total
      && ExpenseChart.SliceSum(home.ChartPanel(clock).slices) == home.StatsPanel(clock).total
  {
  }

  /** Clearing the list and opening the screen again shows no expenses. */
  method ClearThenReopen(home: Home) returns (reopened: Home)
    modifies home
    ensures home.expenses == [] && home.stored == None
    ensures reopened.expenses == [] && reopened.selectedCurrency == "EUR"
  {
    home.ClearAll(true);
    reopened := new Home(home.stored);
    reopened.LoadExpenses(true);
    reopened.LoadCurrency(None);
  }

  /** The currency setting written by the profile screen is the code the home screen shows
      once it regains focus and reads the setting. */
  method CurrencyReachesHome(editor: ProfileScreen.ProfileEditor, home: Home)
    requires editor.Valid() && editor.profile.currency != ""
    modifies home`selectedCurrency
    ensures home.selectedCurrency == editor.profile.currency
  {
    home.LoadCurrency(editor.storedCurrency);
  }

  /** A submit of the form hands its expense to `handleAddExpense`: an accepted amount puts
      one expense of a default category in front of the list, a rejected one changes
      nothing on the screen. */
  method SubmitExpense(form: ExpenseForm.Form, home: Home, parse: string -> Option<real>,
                       idClock: nat, timestampClock: nat, writeOk: bool)
    returns (emitted: Option<Expense>)
    requires form.Valid()
    modifies form`amount, home`expenses, home`stored
    ensures emitted.None? <==> ExpenseForm.AcceptedAmount(old(form.amount), parse).None?
    ensures emitted.Some? ==>
      emitted.value == ExpenseForm.NewExpense(parse(old(form.amount)).value, old(form.category),
                                              idClock, timestampClock)
    ensures emitted.None? ==> home.expenses == old(home.expenses) && home.stored == old(home.stored)
    ensures emitted.None? ==> form.amount == old(form.amount)
    ensures emitted.Some? ==> home.expenses == [emitted.value] + old(home.expenses)
    ensures emitted.Some? ==> home.stored == if writeOk then Some(home.expenses) else old(home.stored)
    ensures emitted.Some? ==> form.amount == ""
    ensures form.category == old(form.category)
    ensures emitted.Some? ==> emitted.value.category in DEFAULT_CATEGORIES
    ensures emitted.Some? && writeOk ==> home.InSync()
  {
    emitted := form.Submit(parse, idClock, timestampClock);
    if emitted.Some? {
      home.AddExpense(emitted.value, writeOk);
    }
  }
}
