/** Currency codes and their display symbols, with the two fallbacks used by the screens. */
module Currency {
  import opened Wrappers

  /** The codes the profile screen offers, in display order. */
  const CURRENCIES: seq<string> := ["USD", "EUR", "GBP", "JPY", "AUD", "CAD", "CHF", "CNY", "INR"]

  /** The nine-entry symbol table. */
  const SYMBOLS: map<string, string> := map[
    "USD" := "$", "EUR" := "€", "GBP" := "£", "JPY" := "¥", "AUD" := "A$",
    "CAD" := "C$", "CHF" := "Fr", "CNY" := "¥", "INR" := "₹"]

  /** `CURRENCY_SYMBOLS[code]`: the table entry, or the empty (falsy) result for a code
      outside the table. */
  function Lookup(code: string): string {
    if code in SYMBOLS then SYMBOLS[code] else ""
  }

  /** The chart's symbol: the `currency` prop defaults to "EUR" when omitted, and
      `CURRENCY_SYMBOLS[currency] || "€"` falls back to the euro sign. */
  function ChartSymbol(currency: Option<string>): (symbol: string)
    ensures currency.None? ==> symbol == "€"
    ensures currency.Some? && currency.value in SYMBOLS ==> symbol == SYMBOLS[currency.value]
    ensures currency.Some? && currency.value !in SYMBOLS ==> symbol == "€"
  {
    var code := currency.GetOr("EUR");
    var found := Lookup(code);
    if found != "" then found else "€"
  }

  /** The profile screen's preview: `CURRENCY_SYMBOLS[code] || code`, so an unknown code
      is shown as itself. */
  function ProfileSymbol(code: string): (symbol: string)
    ensures code in SYMBOLS ==> symbol == SYMBOLS[code]
    ensures code !in SYMBOLS ==> symbol == code
  {
    var found := Lookup(code);
    if found != "" then found else code
  }

  /** Every code the profile screen offers has a symbol, and the list has no repeats. */
  lemma OfferedCodesHaveSymbols()
    ensures forall i :: 0 <= i < |CURRENCIES| ==> CURRENCIES[i] in SYMBOLS
    ensures forall i, j :: 0 <= i < j < |CURRENCIES| ==> CURRENCIES[i] != CURRENCIES[j]
    ensures forall code :: code in SYMBOLS ==> code in CURRENCIES
  {
  }

  /** The two fallbacks agree on every table code and disagree on any other code
      that is not itself the euro sign. */
  lemma FallbacksCompared(code: string)
    ensures code in SYMBOLS ==> ChartSymbol(Some(code)) == ProfileSymbol(code)
    ensures code !in SYMBOLS && code != "€" ==> ChartSymbol(Some(code)) != ProfileSymbol(code)
  {
  }
}
