/** The expense entry form: an amount box and a category picker. `Number()` is the
    parameter `parse` (None for NaN), and the two `Date.now()` reads are parameters. */
module ExpenseForm {
  import opened Wrappers
  import opened Expenses
  import opened Decimal

  /** The amount a submit accepts: the text must be non-empty and parse to a number.
      No sign or range is checked, so zero and negative amounts pass. */
  function AcceptedAmount(text: string, parse: string -> Option<real>): (r: Option<real>)
    ensures r.None? <==> text == "" || parse(text).None?
    ensures r.Some? ==> r == parse(text)
  {
    if text == "" then None else parse(text)
  }

  /** The record a submit builds: the id is the decimal rendering of the first clock read,
      the timestamp the second read. */
  function NewExpense(amount: real, category: string, idClock: nat, timestampClock: nat): (e: Expense)
    ensures e.amount == amount && e.category == category && e.timestamp == timestampClock
    ensures forall i :: 0 <= i < |e.id| ==> IsDigit(e.id[i])
    ensures DecimalValue(e.id) == idClock
  {
    DecimalRoundTrip(idClock);
    Expense(DecimalString(idClock), amount, category, timestampClock)
  }

  /** Because the id and the timestamp come from two clock reads, the id spells the
      timestamp exactly when the two reads agree. */
  lemma IdMatchesTimestampIff(amount: real, category: string, idClock: nat, timestampClock: nat)
    ensures var e := NewExpense(amount, category, idClock, timestampClock);
      e.id == DecimalString(e.timestamp as nat) <==> idClock == timestampClock
  {
    DecimalInjective(idClock, timestampClock);
  }

  /** Two submitted expenses get the same id exactly when their id clock reads agree,
      whatever their amounts, categories and timestamps: expenses created within the same
      millisecond collide, any others differ. */
  lemma IdsCollideIff(first: Expense, second: Expense,
                      amount1: real, category1: string, idClock1: nat, timestampClock1: nat,
                      amount2: real, category2: string, idClock2: nat, timestampClock2: nat)
    requires first == NewExpense(amount1, category1, idClock1, timestampClock1)
    requires second == NewExpense(amount2, category2, idClock2, timestampClock2)
    ensures first.id == second.id <==> idClock1 == idClock2
  {
  }

  class Form {
    /** The text in the amount box. */
    var amount: string
    /** The picker's selection. */
    var category: string

    /** The picker only offers the default categories. */
    ghost predicate Valid()
      reads this
    {
      category in DEFAULT_CATEGORIES
    }

    /** An empty amount box with "Food" selected. */
    constructor ()
      ensures Valid() && amount == "" && category == "Food"
    {
      amount := "";
      category := "Food";
    }

    /** Typing into the amount box. */
    method SetAmount(text: string)
      modifies this`amount
      ensures amount == text
    {
      amount := text;
    }

    /** Choosing an entry in the picker, which lists only the default categories. */
    method SelectCategory(choice: string)
      requires choice in DEFAULT_CATEGORIES
      modifies this`category
      ensures Valid() && category == choice
    {
      category := choice;
    }

    /** `handleSubmit`: a rejected amount emits nothing and keeps the box; an accepted one
        emits exactly one expense with the parsed amount and the selected category, then
        empties the box and keeps the selection. */
    method Submit(parse: string -> Option<real>, idClock: nat, timestampClock: nat)
      returns (emitted: Option<Expense>)
      requires Valid()
      modifies this`amount
      ensures Valid() && category == old(category)
      ensures emitted.None? <==> AcceptedAmount(old(amount), parse).None?
      ensures emitted.None? ==> amount == old(amount)
      ensures emitted.Some? ==> amount == ""
      ensures emitted.Some? ==>
        emitted.value == NewExpense(parse(old(amount)).value, category, idClock, timestampClock)
    {
      var accepted := AcceptedAmount(amount, parse);
      if accepted.None? {
        return None;
      }
      emitted := Some(NewExpense(accepted.value, category, idClock, timestampClock));
      amount := "";
    }
  }
}
