# Expense ledger model

This project models the ledger core of a single-page expense tracker. The page keeps
a list of expenses (`id`, `name`, `amount`, `categoryId`, `date`), newest first, in a
variable. It hydrates that list from the browser store at start-up and writes the
whole list back after every change. From the list it derives the balance and a
per-category spending chart. It resolves category ids against a fixed table of
seven categories.

The model is written in Dafny and proves properties of it:

- `Tracker.Ledger` is the page's mutable state, held as a class. The list is a
  `seq<Expense>` field and the store is a log of written snapshots. Its methods are
  start-up loading, `addExpense`, `removeExpense`, clear-all, the totals loop of
  `renderChart` and the chart itself.
- `Expenses` holds the record and the pure parts of the ledger: the balance
  `reduce`, removal by `filter`, per-category sums and the form check.
- `SpendingChart` holds the totals loop as a fold (`Step`/`Run`), the percentages and
  which bars are drawn, in `Object.keys` order.
- `Categories` holds the category table and its two lookups with their fallbacks.
- `Storage` holds hydration from an optional stored string with an abstract parser.
- `Text` holds `String.prototype.trim`. `Money` holds the digit grouping of
  `formatMoney`. `Collections` holds `Array.prototype.filter`. `Wrappers` holds `Option`.

Amounts are exact `real`s, so the sum and percentage identities hold exactly.
`parseFloat`'s result is an `Option<real>`, where `None` stands for `NaN`. The id
that `generateID` would produce is a parameter of `AddExpense`.

The model keeps these behaviours of the code as written:

- `removeExpense` saves even when no record carried the id.
- Clear-all on an empty ledger writes nothing.
- Hydration does not check the shape of individual records. It keeps the array when
  parsing gives one, and otherwise starts empty.
- An empty stored string is falsy, so it is never parsed and gives an empty ledger.
- Records loaded from the store may carry non-positive amounts. The chart then may
  divide by a zero `totalSpent`. The model represents that case as `NonFinite`
  rather than excluding it.

## Model

| member | source | states |
|---|---|---|
| Tracker.Ledger.Load | app.js:5-11 | the ledger starts as the hydrated stored value, with nothing written yet |
| Tracker.Ledger.Save | app.js:150-152 | the whole current list is appended to the store's write log; the list is unchanged |
| Tracker.Ledger.AddExpense | app.js:115-135 | the outcome is decided by the form check; a rejected form leaves the list and the store untouched; an accepted one makes the list `[new] + old` and saves it; the balance grows by the new amount; ids stay unique when the given id is fresh |
| Tracker.Ledger.RemoveExpense | app.js:204-206 | the list becomes the old list without the records carrying the id and is saved (also when nothing matched); unique ids stay unique |
| Tracker.Ledger.ClearAll | app.js:61-64 | on an empty list nothing changes and nothing is written; otherwise the list becomes empty and one empty snapshot is written; the balance is 0 afterwards |
| Tracker.Ledger.CategoryTotals | app.js:223-230 | the loop computes the fold `Run`; its keys are exactly the category ids in use, each listed once; each total is that category's sum; `totalSpent` is the balance and the sum of the totals |
| Tracker.Ledger.RenderChart | app.js:217-253 | the bars produced are `Chart(expenses)`: none for an empty ledger, otherwise one bar per key in key order whose percentage passes `> 0` |
| Expenses.Balance | app.js:213 | definition of the balance: the `reduce` that adds the amounts from the first record to the last; its properties are stated by `BalanceAppend`, `BalancePrepend`, `FilterBalanceBounds` and `SpendingChart.TotalsSumToBalance` |
| Expenses.CategoryTotal | app.js:223-230 | independent definition of one category's spending: the balance of the records carrying exactly that id; `SpendingChart.TotalsAreCategorySums` proves the loop's totals equal it |
| Expenses.BalanceAppend | app.js:213 | the reduce-balance of a concatenation is the sum of the balances |
| Expenses.BalancePrepend | app.js:213 | prepending a record adds exactly its amount to the balance |
| Expenses.FilterBalanceBounds | app.js:213 | with positive amounts, any filtered part weighs between 0 and the whole balance, and more than 0 when it keeps a record |
| Expenses.Without | app.js:204-205 | a record is kept if and only if it was present and its id differs; the removed id no longer occurs |
| Expenses.WithoutAppend | app.js:205 | removal acts on each part of a split independently, so kept records keep their relative order |
| Expenses.WithoutMissing | app.js:205 | removing an id no record carries leaves the list unchanged |
| Expenses.WithoutIdempotent | app.js:205 | a second removal of the same id changes nothing |
| Expenses.WithoutBalance | app.js:205 | removal lowers the balance by exactly the amounts of the removed records |
| Expenses.AddThenRemove | app.js:134 | prepending a record with a fresh id and then removing that id restores the list |
| Expenses.FilterKeepsUnique | app.js:205 | filtering a list with unique ids keeps ids unique |
| Expenses.WithoutKeepsUnique | app.js:205 | removal keeps ids unique |
| Expenses.NewExpense | app.js:116-132 | a record is made if and only if the name is not all whitespace, the amount is a number above 0 and the date is non-empty; the record keeps the untrimmed name and the given fields |
| Text.Trim | app.js:121 | definition of `trim()` as `TrimEnd` after `TrimStart`; its properties are stated by the contracts of `TrimStart` and `TrimEnd` and by `TrimEmptyIffBlank` and `TrimEnds` |
| Text.TrimStart | app.js:121 | the result is a suffix of the input, starting with a non-whitespace character, preceded only by whitespace |
| Text.TrimEnd | app.js:121 | the result is a prefix of the input, ending with a non-whitespace character, followed only by whitespace |
| Text.TrimEmptyIffBlank | app.js:121 | `trim()` gives the empty string exactly when every character is whitespace |
| Text.TrimEnds | app.js:121 | a non-empty trimmed string neither starts nor ends with whitespace |
| Categories.Table | app.js:14-22 | definition of the seven categories with their ids, names, icons and colours in display order; `TableIdsDistinct` and `LookupTableEntry` state its properties |
| Categories.Find | app.js:167 | `find` gives nothing exactly when no entry carries the id; otherwise the first entry that does |
| Categories.Lookup | app.js:167 | the result is a table entry: the one carrying the id when there is one, otherwise the last entry (`other`) |
| Categories.ChartLookup | app.js:233-236 | the chart shows the name and colour of the entry carrying the id, otherwise the default `Other` |
| Categories.TableIdsDistinct | app.js:14-22 | no two table entries share an id |
| Categories.LookupTableEntry | app.js:14-22 | looking up the id of a table entry gives that entry |
| Categories.ChartAgreesWithLookup | app.js:233-236 | for every id, known or unknown, the chart's name and colour equal the transaction list's, since the two fallbacks agree |
| Storage.Hydrate | app.js:5-11 | a non-empty ledger comes only from a non-empty stored string that parsed to that very array |
| Storage.HydrateFailsOpen | app.js:5-11 | an absent key, an empty string, a parse error or a non-array value all give the empty ledger |
| Storage.HydrateAfterSave | app.js:5-11 | when the parser inverts the serializer on a snapshot, hydrating the saved text gives the snapshot back in the same order |
| SpendingChart.Step | app.js:227-229 | definition of one pass of the `forEach` body: append the key when the id is new, reset a missing or zero total, add the amount, add to `totalSpent`; `StepTotals`, `SumOverStep` and `LoopStep` state its properties |
| SpendingChart.Run | app.js:223-230 | definition of the totals loop as a fold of `Step` from empty totals, no keys and 0 spent; `RunShape`, `TotalsAreCategorySums`, `TotalsSumToBalance` and `RunSummary` state its properties, and `Tracker.Ledger.CategoryTotals` is proved to compute it |
| SpendingChart.StepTotals | app.js:227-228 | one pass adds the record's amount to its category's total, or starts that total; other totals are untouched; the falsy reset is immaterial |
| SpendingChart.RunShape | app.js:223-230 | the totals' keys are exactly the category ids in use, unknown ids included; the key order lists each once; `totalSpent` is the reduce-balance |
| SpendingChart.LoopStep | app.js:226-230 | visiting one more record is one `Step` of the fold |
| SpendingChart.TotalsAreCategorySums | app.js:223-230 | each category total is the sum of the amounts carrying exactly that id |
| SpendingChart.SumOverStep | app.js:227-229 | one pass keeps the sum of the totals over the keys equal to the running `totalSpent` |
| SpendingChart.TotalsSumToBalance | app.js:223-230 | the totals, summed over the keys, equal the balance of line 213 |
| SpendingChart.RunSummary | app.js:223-230 | the loop's totals are keyed by exactly the category ids in use, each holds that category's sum, the keys list each once, and `totalSpent` is both the balance and the sum of the totals |
| SpendingChart.TotalsWithinBalance | app.js:237 | with positive amounts every category total lies in (0, balance] |
| SpendingChart.BarsStep | app.js:234-239 | visiting one more key appends its bar exactly when its percentage passes `> 0` |
| SpendingChart.Percentage | app.js:237 | definition of `(amount / totalSpent) * 100`: a finite percentage for a non-zero total, otherwise a non-finite value recording only whether it is positive; `DrawnBar` and `SharesSum` state its properties |
| SpendingChart.Drawn | app.js:239 | definition of the `percentage > 0` test on a finite or non-finite percentage; `BarsStep` and `DrawnBar` use it |
| SpendingChart.Bars | app.js:234-253 | definition of the bars kept by the key loop, in key order, each with the chart's name and colour; `BarsStep`, `BarsAllDrawn`, `BarsHundred` and `DrawBars` state its properties |
| SpendingChart.Chart | app.js:217-253 | definition of what `renderChart` draws: nothing for an empty ledger, else `Bars` over the loop's keys, totals and balance; `EmptyLedgerChart`, `ChartOfRun`, `PositiveLedgerChart` and `Tracker.Ledger.RenderChart` state its properties |
| SpendingChart.DrawnBar | app.js:236-239 | a category whose total lies in (0, totalSpent] gets a drawn bar whose share is its total as a percentage of totalSpent, in (0, 100] |
| SpendingChart.BarsAllDrawn | app.js:234-239 | with a positive total and totals in (0, total], every key gets a drawn bar in key order, whose share is its total as a percentage of the total, in (0, 100] |
| SpendingChart.SharesSum | app.js:237 | bars whose shares are the keys' totals as percentages add up to the keys' sum as a percentage of the total |
| SpendingChart.BarsHundred | app.js:234-239 | when positive totals add up to the total, every key is drawn in order with a share in (0, 100] and the shares add up to 100 |
| SpendingChart.DrawBars | app.js:234-253 | the key loop keeps, in key order, exactly the bars whose percentage passes `> 0`, that is `Bars(keys, totals, totalSpent)` |
| SpendingChart.ChartOfRun | app.js:220-234 | the chart of a non-empty ledger is drawn from the keys, totals and `totalSpent` that the totals loop computes |
| SpendingChart.PositiveLedgerChart | app.js:220-239 | for a non-empty ledger of positive amounts every category in use is drawn, in key order; each percentage lies in (0, 100]; the percentages sum to 100 |
| SpendingChart.EmptyLedgerChart | app.js:220 | an empty ledger draws no bar and computes no percentage |
| Money.Group | app.js:257 | definition of the regex replacement: a comma after each digit followed by a positive multiple of three digits; `GroupLength`, `UngroupGroup` and `GroupShape` state its properties |
| Money.FormatMoney | app.js:257 | definition of `toFixed(2)` followed by the grouping, for a whole number of cents; `FormatMoneyDigits` states its property |
| Money.ValueOfDigits | app.js:257 | the decimal numeral of `n` reads back as `n` |
| Money.GroupLength | app.js:257 | grouping a numeral of `n` digits inserts `(n - 1) / 3` commas |
| Money.UngroupGroup | app.js:257 | dropping the commas from a grouped numeral gives the numeral back |
| Money.GroupShape | app.js:257 | a grouped numeral is a leading group of one to three digits followed only by blocks of a comma and exactly three digits |
| Money.FormatMoneyDigits | app.js:257 | the digits of the formatted amount, separators dropped, spell the amount in cents |
| Collections.Filter | app.js:205 | an element is kept if and only if it is in the input and satisfies the predicate; the result is no longer than the input |
| Collections.FilterAppend | app.js:205 | filtering distributes over concatenation |
| Collections.FilterIdempotent | app.js:205 | filtering twice is filtering once |

## Left out

- DOM rendering and event wiring are not modelled: `renderExpenses`, the markup of `renderChart`, `renderCategories`, `selectCategory`, the modal and `alert`. The model keeps what they consume: the lookups, the bars and the balance.
- `localStorage` and `JSON.parse`/`JSON.stringify` are not modelled. The stored entry is an `Option<string>` and the parser is a function parameter. Parsed arrays are taken to hold expense records, because the code checks only `Array.isArray`.
- `generateID` is not modelled, because it reads the clock and a random source. Its id is a parameter, and unique ids are proved to be preserved only when that id is fresh.
- Date handling is not modelled: `updateDate`, `formatDate` and the date input. A date is a string, and the only check on it is that it is non-empty.
- JavaScript floating point is not modelled. Amounts, sums and percentages are exact reals, and `Math.round` of the percentage label is left out.
- Tracker.Ledger.AddExpense: the amount `Infinity`, which `parseFloat` can return and the check accepts, is not modelled, because amounts are finite reals.
- Money.FormatMoneyDigits: `toFixed(2)` rounding of a non-integral number of cents, the exponential form for very large amounts and negative balances are not modelled. The grouping is stated for a non-negative whole number of cents.
- SpendingChart.KeyOrder: JavaScript lists integer-like object keys first, in ascending order. The model keeps plain insertion order, which is what the table's ids get. Keys inherited from `Object.prototype`, such as `constructor`, are not modelled either.
- scripts/validate.js is not modelled. It only checks that files exist and exits the process for CI.
