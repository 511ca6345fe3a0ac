# Expense tracker core, modelled in Dafny

This project models the logic layer of a small React Native expense tracker. The app records expenses (an amount, a category, a timestamp and an id), shows them per day or per month with totals, an average and a pie chart grouped by category, and keeps a user profile (names, email, phone, preferred currency, custom categories) in local key-value storage.

The model covers five parts of the app:

- **Expense aggregation** (`Expenses`, `Periods`, `ExpenseStats`, `ExpenseChart`). This is the period filter, the statistics panel (total, average guarded against an empty list, count) and the chart.
  - The chart groups amounts by category in order of first occurrence, builds the category dictionary with a loop, colours slices by cycling the palette, and shows the empty state.
- **The home screen** (`HomeScreen.Home`), a class whose methods update the expense list, the active tab and the currency code.
  - The `@expenses` storage entry is a field.
  - Whether a storage call succeeds is a method argument.
- **The expense form** (`ExpenseForm.Form`): amount validation, expense construction, and reset of the amount box.
  - `Number()` is an abstract `parse: string -> Option<real>`.
  - The two `Date.now()` reads are parameters.
  - `Date.now().toString()` is modelled as decimal rendering (`Decimal`), with a round-trip proof.
- **The profile screen** (`Profile`, `ProfileScreen.ProfileEditor`). This covers:
  - loading a stored record, including migration of the old single-`name` format;
  - the email check, written as a direct predicate and proved equivalent to the regular expression `^[^\s@]+@[^\s@]+\.[^\s@]+$`;
  - adding and removing custom categories, single-field edits and their error clearing;
  - the unsaved-changes flag, the two-write save, and the effect that writes the currency setting whenever the profile's currency changes.
- **Currency symbols** (`Currency`): the nine-entry table with its two different fallbacks, "€" in the chart and the code itself in the profile screen.

JavaScript string semantics are written out in `Text`: `trim` with the ECMAScript white-space set, `indexOf`, `split` on a one-character separator, and `join`. `a || b` on strings is `Profile.Or`. Lists are folded from the left, as `reduce` does.

The two screens share storage only through keys, so some properties are stated across them:
- `HomeScreen.CurrencyReachesHome`: the profile screen's currency setting is what the home screen shows.
- `HomeScreen.SubmitExpense`: a form submit feeds `handleAddExpense`.
- `HomeScreen.PanelsAgree`: the statistics panel, which filters the full list itself, agrees with the chart, which is given the list already filtered.

## Model

| member | source | states |
|---|---|---|
| Currency.ChartSymbol | components/ExpenseChart.tsx:35-46 | an omitted currency means "EUR"; a table code gives its symbol; any other code gives "€" |
| Currency.ProfileSymbol | screens/ProfileScreen.tsx:302-305 | a table code gives its symbol; any other code is shown as itself |
| Currency.OfferedCodesHaveSymbols | screens/ProfileScreen.tsx:45-68 | the nine offered codes are distinct, each has a symbol, and the table has no other code |
| Currency.FallbacksCompared | screens/ProfileScreen.tsx:304 | the chart's and the profile's lookups agree on table codes and differ on every other code except "€" itself |
| Decimal.DecimalString | components/ExpenseForm.tsx:34 | `toString()` of a clock reading is a non-empty digit string without a leading zero |
| Decimal.DecimalRoundTrip | components/ExpenseForm.tsx:34 | reading the decimal rendering back gives the number |
| Decimal.DecimalInjective | components/ExpenseForm.tsx:34 | two readings render equally exactly when they are equal |
| Expenses.Total | components/ExpenseStats.tsx:24 | the left fold of the amounts from 0, as `reduce` computes it (also `totalSpent` at components/ExpenseChart.tsx:62); its properties are stated by `TotalNonNegative`, `TotalAppend` and `TotalBounds` |
| Expenses.TotalNonNegative | components/ExpenseStats.tsx:24 | with no negative amount the `reduce` total is not negative |
| Expenses.TotalAppend | components/ExpenseStats.tsx:24 | the `reduce` total of a concatenation is the sum of the totals |
| Expenses.TotalBounds | components/ExpenseStats.tsx:24 | with every amount in [lo, hi], the total of n expenses lies in [n·lo, n·hi] |
| Periods.Boundary | screens/HomeScreen.tsx:76-93 | for a consistent clock, both boundaries lie between the start of the month and the start of the day |
| Periods.Since | screens/HomeScreen.tsx:84 | every expense the filter keeps is at or after the boundary |
| Periods.SinceIsSubsequence | screens/HomeScreen.tsx:84 | the filter keeps the list order |
| Periods.SinceCounts | screens/HomeScreen.tsx:91 | every expense at or after the boundary is kept with its full multiplicity; no other expense is kept |
| Periods.SinceKeepsMembers | components/ExpenseStats.tsx:16 | every kept expense is in the original list |
| Periods.SinceAppend | components/ExpenseStats.tsx:19 | filtering a concatenation concatenates the filtered parts |
| Periods.SinceNarrows | components/ExpenseStats.tsx:14-20 | filtering with an early boundary and then a later one equals filtering with the later one |
| Periods.SinceIdempotent | screens/HomeScreen.tsx:84 | filtering twice with one boundary equals filtering once |
| Periods.DailyWithinMonthly | screens/HomeScreen.tsx:76-93 | for one clock reading, the daily list is the monthly list filtered again; it is a subsequence of it and no longer |
| Periods.SinceTotalAtMost | components/ExpenseStats.tsx:16-24 | with no negative amounts, filtering cannot raise the total or take it below zero |
| ExpenseStats.Summarize | components/ExpenseStats.tsx:23-25 | count is the length, total is the fold, average·count = total when count > 0, and an empty list gives (0, 0, 0) |
| ExpenseStats.CurrentStats | components/ExpenseStats.tsx:12-25 | the count is the length of the period's filtered subset and the total is that subset's fold, so the count is at most the list's length; (0, 0, 0) when no entry is in the period, and otherwise an average with average·count = total |
| ExpenseStats.CurrentTotalWithinTotal | components/ExpenseStats.tsx:12-24 | with no negative amounts, the panel's total lies between zero and the total of the whole list (`totalSpent` at components/ExpenseChart.tsx:62 for the same list) |
| ExpenseStats.AverageWithinBounds | components/ExpenseStats.tsx:25 | the average lies between the smallest and the largest amount |
| ExpenseStats.DailyWithinMonthlyStats | components/ExpenseStats.tsx:12-25 | for one clock reading, the daily count is at most the monthly count, and with no negative amounts so is the total |
| ExpenseChart.CategoryOrder | components/ExpenseChart.tsx:48-51 | the dictionary's keys are distinct and are exactly the categories that occur |
| ExpenseChart.FirstIndex | components/ExpenseChart.tsx:48-51 | the position of a category's first expense |
| ExpenseChart.TotalsOf | components/ExpenseChart.tsx:48-51 | the dictionary has an entry exactly for each category that occurs, and its key order is `CategoryOrder` |
| ExpenseChart.BuildCategoryTotals | components/ExpenseChart.tsx:48-51 | the in-place `reduce` loop builds exactly `TotalsOf`: each key's value is the sum of that category's amounts, and new keys go last |
| ExpenseChart.ChartData | components/ExpenseChart.tsx:53-60 | one slice per dictionary entry, in order, with its name and amount, coloured `COLORS[i % 8]` |
| ExpenseChart.ColorsCycle | components/ExpenseChart.tsx:24-33 | the first eight slices get pairwise different colours, and colours repeat with period eight |
| ExpenseChart.CategorySumAbsent | components/ExpenseChart.tsx:49 | a category that does not occur sums to zero |
| ExpenseChart.SumByCategorySnoc | components/ExpenseChart.tsx:49 | one more expense adds its amount to a sum over distinct categories exactly when its category is among them |
| ExpenseChart.CategoryTotalsAddUp | components/ExpenseChart.tsx:48-62 | the category totals add up to `totalSpent` |
| ExpenseChart.SliceSumByCategory | components/ExpenseChart.tsx:53-60 | the slice amounts add up to the sum of their categories' totals |
| ExpenseChart.FirstIndexOfPrefix | components/ExpenseChart.tsx:48-51 | a category already present keeps its first position when an expense is appended |
| ExpenseChart.OrderIsFirstOccurrence | components/ExpenseChart.tsx:53-60 | the slices come in strictly increasing order of their categories' first occurrence |
| ExpenseChart.Render | components/ExpenseChart.tsx:35-96 | the empty state exactly for an empty list; otherwise the symbol, `totalSpent`, one slice per distinct category in first-occurrence order carrying that category's total, and slices that add up to `totalSpent` |
| ExpenseForm.AcceptedAmount | components/ExpenseForm.tsx:28-31 | an amount is rejected exactly when the text is empty or parses to NaN; otherwise the parsed value, with no sign or range check |
| ExpenseForm.NewExpense | components/ExpenseForm.tsx:33-38 | the expense carries the amount, the category and the second clock read; its id is a digit string whose value is the first clock read |
| ExpenseForm.IdMatchesTimestampIff | components/ExpenseForm.tsx:34-37 | the id spells the timestamp exactly when the two clock reads agree |
| ExpenseForm.IdsCollideIff | components/ExpenseForm.tsx:33-38 | two submitted expenses get the same id exactly when their id clock reads agree, whatever their amounts, categories and timestamps, so expenses created in the same millisecond collide |
| ExpenseForm.Form.constructor | components/ExpenseForm.tsx:24-25 | the form starts with an empty amount and "Food" selected |
| ExpenseForm.Form.SetAmount | components/ExpenseForm.tsx:53 | typing replaces the amount text |
| ExpenseForm.Form.SelectCategory | components/ExpenseForm.tsx:60-67 | only a default category can be selected, and it becomes the selection |
| ExpenseForm.Form.Submit | components/ExpenseForm.tsx:27-43 | a rejected amount emits nothing and keeps the box; an accepted one emits exactly `NewExpense` of the parsed amount and the selection, empties the box and keeps the selection |
| HomeScreen.Home.constructor | screens/HomeScreen.tsx:17-19 | an empty list, the daily tab and "EUR" |
| HomeScreen.Home.LoadExpenses | screens/HomeScreen.tsx:30-39 | a stored list replaces the in-memory one; an absent list or a failed read changes nothing |
| HomeScreen.Home.LoadCurrency | screens/HomeScreen.tsx:41-50 | only a non-empty stored code replaces the currency |
| HomeScreen.Home.AddExpense | screens/HomeScreen.tsx:52-60 | the list becomes `[e] + old`; storage gets the new list only if the write succeeds, and a failed write is not rolled back; tab and currency are untouched |
| HomeScreen.Home.ClearAll | screens/HomeScreen.tsx:62-70 | on a successful delete the list and the entry are emptied; on failure both are unchanged |
| HomeScreen.Home.TabChange | screens/HomeScreen.tsx:72-74 | only the active tab changes |
| HomeScreen.Home.CurrentExpenses | screens/HomeScreen.tsx:76-93 | the current list keeps the stored order, holds only expenses at or after the active tab's boundary, and holds each of those with its full multiplicity |
| HomeScreen.AddedExpenseInCurrentList | screens/HomeScreen.tsx:52-93 | a new expense appears first in the current list when it is inside the period, and the rest of the current list is unchanged |
| HomeScreen.PanelsAgree | screens/HomeScreen.tsx:125-138 | for a home screen and one clock reading, the stats panel (given the full list) shows a zero count exactly when the chart (given the filtered list) shows its empty state, and otherwise both show the same total, which the slices add up to |
| HomeScreen.ClearThenReopen | screens/HomeScreen.tsx:62-70 | after a successful clear, a reopened screen shows no expenses |
| HomeScreen.CurrencyReachesHome | screens/HomeScreen.tsx:41-50 | the home screen shows the profile's non-empty currency after reading the setting the profile screen keeps; only the selected currency changes |
| HomeScreen.SubmitExpense | screens/HomeScreen.tsx:130-133 | a submit emits an expense exactly when the amount in the box is accepted; the emitted expense is `NewExpense` of the parsed amount, the selected category and the two clock reads, it goes in front of the list, storage gets the new list only if the write succeeds, and the box is emptied; a rejected amount changes neither the box nor the list nor storage; the selected category is kept |
| Profile.Encode | screens/ProfileScreen.tsx:148 | saving writes every key with the profile's value, and a legacy `name` as it was read |
| Profile.Migrate | screens/ProfileScreen.tsx:105-118 | the loaded phone codes are never empty; non-empty stored names are kept; without a legacy name a missing name is ""; stored email, phone number, currency, custom categories and the custom-categories switch are kept, and so are non-empty stored phone country and dial codes; the legacy name is carried over |
| Profile.LegacyNameSplit | screens/ProfileScreen.tsx:108-113 | with empty names, a legacy name with a space loads as first + " " + last with a space-free first name; without a space it is the first name and the last name is "" |
| Profile.NameSplitsAtFirstSpace | screens/ProfileScreen.tsx:109-112 | `split(" ")[0]` and `split(" ").slice(1).join(" ")` cut a name at its first space |
| Profile.MissingKeysTakeDefaults | screens/ProfileScreen.tsx:105-118 | missing keys take the defaults; empty or missing phone codes become "GB" and "+44"; an empty record loads as the default profile |
| Profile.SaveLoadRoundTrip | screens/ProfileScreen.tsx:105-148 | a saved profile loads back unchanged when its phone codes are non-empty and no legacy name can refill an empty name |
| Profile.LoadSaveLoadStable | screens/ProfileScreen.tsx:105-148 | saving a loaded profile and loading it again gives the same profile |
| Profile.LegacyNameResurfaces | screens/ProfileScreen.tsx:105-148 | an emptied first name of a profile that still carries a legacy name comes back as the name's first word after save and load |
| Profile.IsValidEmail | screens/ProfileScreen.tsx:131 | an accepted email has at least five characters, starts and ends with no '@', has its first '@' neither first nor among its last three characters, and has a '.' |
| Profile.ValidEmailMatches | screens/ProfileScreen.tsx:131 | every string the direct check accepts matches the regular expression |
| Profile.PatternMatchesAreValid | screens/ProfileScreen.tsx:131 | every string the regular expression matches passes the direct check |
| Profile.ValidEmailIffPattern | screens/ProfileScreen.tsx:131 | the direct check accepts exactly the strings the regular expression matches |
| Profile.PlainSlice | screens/ProfileScreen.tsx:131 | a `[^\s@]+` run has no white space and no '@' at any position |
| Profile.PatternHasNoSpace | screens/ProfileScreen.tsx:131 | a matching string has no white space |
| Profile.PatternHasOneAt | screens/ProfileScreen.tsx:131 | a matching string has exactly one '@' |
| Profile.AddCategory | screens/ProfileScreen.tsx:181-193 | blank input iff all white space; duplicate iff the trimmed text is listed; otherwise the trimmed text is appended after the unchanged list |
| Profile.AddedLabelIsNew | screens/ProfileScreen.tsx:182-189 | an added entry is non-empty, trimmed and new, so a duplicate-free list stays duplicate-free |
| Profile.RemoveCategory | screens/ProfileScreen.tsx:195-201 | the result is an order-preserving subsequence containing no copy of the entry |
| Profile.RemoveCounts | screens/ProfileScreen.tsx:198 | every copy of the entry goes and every other entry keeps its multiplicity |
| Profile.RemoveAbsent | screens/ProfileScreen.tsx:198 | removing an unlisted entry leaves the list unchanged |
| Profile.RemoveUndoesAdd | screens/ProfileScreen.tsx:181-201 | removing the entry just added restores the list |
| Profile.Apply | screens/ProfileScreen.tsx:203-204 | the edited key takes the new value; every other key and the legacy name keep theirs |
| Profile.ProfileDeterminedByFields | screens/ProfileScreen.tsx:21-31 | profiles equal on every key and on the legacy name are equal |
| ProfileScreen.ProfileEditor.constructor | screens/ProfileScreen.tsx:70-97 | the screen starts with the default profile, no changes and no errors, and the mount effect writes "EUR" as the currency setting |
| ProfileScreen.ProfileEditor.CurrencyEffect | screens/ProfileScreen.tsx:92-97 | a change of the currency to a non-empty code writes that code as the currency setting |
| ProfileScreen.ProfileEditor.Load | screens/ProfileScreen.tsx:99-125 | a stored record replaces profile and snapshot with its migration, leaving no unsaved changes; otherwise nothing changes |
| ProfileScreen.ProfileEditor.SetNewCategory | screens/ProfileScreen.tsx:348 | typing replaces the new-category text |
| ProfileScreen.ProfileEditor.AddCategory | screens/ProfileScreen.tsx:181-193 | an added entry replaces the list and clears the box; a blank or duplicate input changes nothing |
| ProfileScreen.ProfileEditor.RemoveCategory | screens/ProfileScreen.tsx:195-201 | the list is replaced by its filtered copy |
| ProfileScreen.ProfileEditor.Update | screens/ProfileScreen.tsx:203-213 | one key changes and only that key's error is cleared; the currency effect follows |
| ProfileScreen.ProfileEditor.BlurEmail | screens/ProfileScreen.tsx:269-279 | leaving a non-empty malformed email records its message and keeps the others |
| ProfileScreen.ProfileEditor.Validate | screens/ProfileScreen.tsx:127-139 | the result is "email empty or valid", and the errors are replaced by the email message or nothing |
| ProfileScreen.ProfileEditor.Save | screens/ProfileScreen.tsx:141-157 | a rejected email writes nothing; otherwise the profile write, then the currency write; only when both succeed does the snapshot become the profile and the unsaved-changes flag clear |
| ProfileScreen.SaveThenReopen | screens/ProfileScreen.tsx:99-157 | a saved profile meeting the round-trip conditions reopens unchanged with no unsaved changes |
| ProfileScreen.PickCurrencyWithoutSaving | screens/ProfileScreen.tsx:92-97 | picking a new currency changes the currency setting at once, while the stored profile is untouched and the screen reports unsaved changes |
| Text.TrimStart | screens/ProfileScreen.tsx:182 | drops exactly the leading white space |
| Text.TrimEnd | screens/ProfileScreen.tsx:182 | drops exactly the trailing white space |
| Text.Trim | screens/ProfileScreen.tsx:182 | the result is empty iff the input is all white space; otherwise it neither starts nor ends with white space |
| Text.TrimIsSlice | screens/ProfileScreen.tsx:182 | the result of `trim` is a slice of the input with only white space dropped on either side |
| Text.TrimIdempotent | screens/ProfileScreen.tsx:183-189 | trimming a trimmed string changes nothing |
| Text.IndexOf | screens/ProfileScreen.tsx:109 | the first position of the character, or -1 exactly when it is absent |
| Text.Split | screens/ProfileScreen.tsx:109 | `split` always yields at least one piece, and no piece contains the separator |
| Text.JoinSplit | screens/ProfileScreen.tsx:109-112 | joining the pieces of a split with the separator gives the string back |
| Text.SplitAtFirst | screens/ProfileScreen.tsx:109-112 | the first piece is the text before the first separator, and the other pieces join back to the text after it |
| Text.SplitWithout | screens/ProfileScreen.tsx:109-112 | without a separator the split is the whole string |

## Left out

- Storage (`AsyncStorage`) and `JSON.parse`/`JSON.stringify` are not modelled as I/O.
  - The stored entries are fields: `stored` and `storedCurrency` on the profile editor, `stored` on the home screen.
  - Success or failure of each call is a method argument.
  - JSON `null` values and stored keys other than the profile's keys and `name` are not modelled.
- The effect that writes `@selectedCurrency` is assumed to succeed, since its write is not awaited and its failure is never observed.
- ProfileScreen.ProfileEditor.Load: a read that fails and one that finds nothing behave the same, and the failure toast is not modelled.
- The day and month boundaries are not computed from local time (`new Date(y, m, d)`). They are fields of a `Clock`, with `startOfMonth <= startOfDay` assumed.
- HomeScreen.PanelsAgree: the statistics panel and the home screen each call `new Date()`. The model gives both the same clock reading, so it does not capture the two reads straddling midnight.
- `Number()` is an abstract parameter, so its parsing rules and `Infinity` are not modelled.
- Amounts are exact `real`s. Floating-point rounding and `toFixed(2)` are not modelled.
- ExpenseChart.CategoryTotalsAddUp: holds in exact arithmetic; with IEEE doubles the category sums and `totalSpent` can differ by rounding.
- ExpenseChart.Render: the same caveat holds for its slice-sum ensures.
- ExpenseChart.OrderIsFirstOccurrence: `Object.entries` lists integer-like keys first, in numeric order. The model assumes plain insertion order, which holds for the form's default category names.
- ExpenseChart.Render: a category named after an `Object.prototype` member (such as "constructor") would be read back as that member. The model assumes such keys do not occur, as the form never produces them.
- Currency.ChartSymbol: inherited keys such as "constructor" in the symbol table's lookup are not modelled.
- Currency.ProfileSymbol: the same holds for the profile screen's lookup (screens/ProfileScreen.tsx:304), which can be given a code read back from storage.
- The `$` hard-coded in the form and the statistics panel is not modelled. The unused `currency` prop passed to them is not modelled either. Both are display only.
- Rendering is not modelled: styles, toasts, `Alert`, navigation, `confirmDiscardChanges`, `IntlPhoneField` and its `handlePhoneChange` wiring.
  - `handlePhoneChange` is a sequence of `Update` calls.
- `TabBar`, `ExpenseList` and `index.ts` are not part of this model, since they only present data or register the app.
- The focus effect that calls `loadExpenses` and `loadCurrency` together is not modelled as one step. It is two method calls.
