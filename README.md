# Budget dashboard chart: a verified model

This project models the aggregation behind Firefly III's v2 budget dashboard chart,
`BudgetController` in `app/Api/V2/Controllers/Chart/BudgetController.php`.

- `dashboard` asks for the active budgets. For each one, `processBudget` looks for budget limits
  in the requested window.
- A budget without limits goes through `noBudgetLimits`. It lists the budget's expenses over the
  whole window, grouped per currency, and `processExpenses` turns every currency block into one
  row. A row has the amount spent in that currency and the same amount in the user's native
  currency, converted journal by journal. "Left" and "overspent" stay zero.
- A budget with limits goes through `budgetLimits`, which calls `processLimit` once per limit.
  `processLimit` makes three changes:
  - it widens the limit's window to the end of its last day;
  - it keeps only the block in the limit's currency;
  - it fills in "left" when the limit is larger than what was spent, and "overspent" otherwise.
    Both figures are also given in the native currency, using the limit converted at its start
    date's rate.
- Each row is reshaped into a chart entry labelled with the budget's name. The entries are
  concatenated in order and never merged.
- The controller keeps a cache of currency records, keyed by currency id, for the duration of a
  request.

The model has four modules:

- `ChartTypes` (`chart_types.dfy`) holds the values:
  - currencies, journals and expense blocks;
  - budgets and budget limits;
  - the per-currency rows and the chart entries;
  - the `Services` the controller receives: the native currency, the currency lookup, the
    exchange-rate converter and the three repository queries.
- `Aggregation` (`aggregation.dfy`) describes every step as a pure function of those inputs.
- `AggregationLemmas` (`aggregation_lemmas.dfy`) proves what these functions promise:
  - sums and their native conversion;
  - one row per currency;
  - a limit's single row and its two exclusive branches;
  - path choice, order and labelling.
- `BudgetChart` (`budget_controller.dfy`) is the controller as a class:
  - the currency cache is a `map` field, with a ghost log of the ids handed to the lookup;
  - every PHP loop is a `for` loop with invariants;
  - each method is proved to return exactly what the matching `Aggregation` function describes;
  - each method is proved to only extend the cache, never to look an id up twice, and to add
    exactly the currency ids its answer carries.

Amounts are exact decimals, modelled as `real`, because the controller uses bcmath only. A moment
is a day number plus a microsecond within that day.

## Model

| member | source | states |
|---|---|---|
| ChartTypes.EndOfDay | app/Api/V2/Controllers/Chart/BudgetController.php:279-280 | the limit window's end stays on the limit's end day and is no earlier than any valid moment of that day |
| ChartTypes.Positive | app/Api/V2/Controllers/Chart/BudgetController.php:300-308 | steam's positive() gives a non-negative amount equal to the input or its negation |
| ChartTypes.Compare | app/Api/V2/Controllers/Chart/BudgetController.php:300 | bccomp gives -1, 0 or 1; it is 1 exactly when the limit is larger and 0 exactly when the two are equal |
| BudgetChart.BudgetController.constructor | app/Api/V2/Controllers/Chart/BudgetController.php:52-66 | the controller starts with the given services, an empty currency cache and no lookups made |
| BudgetChart.BudgetController.SumJournals | app/Api/V2/Controllers/Chart/BudgetController.php:227-238 | the journal loop adds up exactly the amounts (Spent) and the native conversions (NativeSpent) of the journals filed under the budget |
| BudgetChart.BudgetController.CacheCurrency | app/Api/V2/Controllers/Chart/BudgetController.php:202 | the cached record is the lookup's answer; the cache gains only this id; the lookup is called only when the id was not cached, and nothing cached is lost |
| BudgetChart.BudgetController.ProcessExpenses | app/Api/V2/Controllers/Chart/BudgetController.php:189-241 | returns ExpenseRows of the blocks; afterwards the cache holds every old id plus every currency id of the blocks, each new lookup was of an id not cached before, and the cache invariant holds |
| BudgetChart.BudgetController.NoBudgetLimits | app/Api/V2/Controllers/Chart/BudgetController.php:171-176 | returns the expense rows of the budget's listing for the whole window; the cache gains exactly the listing's currency ids |
| BudgetChart.BudgetController.FilterLimitCurrency | app/Api/V2/Controllers/Chart/BudgetController.php:285-297 | the filter loop keeps exactly FilterCurrency of the listing, that is the blocks in the limit's currency, in order |
| BudgetChart.BudgetController.PatchWithLimit | app/Api/V2/Controllers/Chart/BudgetController.php:299-310 | the two sequential ifs on one comparison run exactly one of the two patches ApplyLimit chooses between, and leave the row as ApplyLimit describes |
| BudgetChart.BudgetController.ProcessLimit | app/Api/V2/Controllers/Chart/BudgetController.php:276-312 | returns LimitRows: the expenses up to the end of the end day, filtered to the limit's currency and patched; the cache gains exactly the ids of the kept blocks (LimitCurrencyIds), which is at most the limit's currency |
| BudgetChart.BudgetController.BudgetLimits | app/Api/V2/Controllers/Chart/BudgetController.php:257-267 | returns the concatenation, in the limits' order, of every limit's rows; the cache gains exactly the union of the limits' cached ids |
| BudgetChart.BudgetController.ReshapeRows | app/Api/V2/Controllers/Chart/BudgetController.php:129-157 | the reshaping loop returns ReshapeAll of the rows: one labelled entry per row, in order |
| BudgetChart.BudgetController.ProcessBudget | app/Api/V2/Controllers/Chart/BudgetController.php:114-158 | returns BudgetEntries: the no-limit rows when the budget has no limit, otherwise the per-limit rows, reshaped one for one; the cache gains exactly the ids of the path taken |
| BudgetChart.BudgetController.Dashboard | app/Api/V2/Controllers/Chart/BudgetController.php:87-102 | returns the concatenation, in the active budgets' order, of every budget's entries; the cache gains exactly DashboardCurrencyIds, which DashboardCurrencyIdsAreEntries shows are the currencies of the returned entries |
| Aggregation.FilterCurrencyKeeps | app/Api/V2/Controllers/Chart/BudgetController.php:291-297 | a block is kept exactly when it is in the listing and in the limit's currency; with distinct currency keys at most one block is kept |
| Aggregation.ApplyLimit | app/Api/V2/Controllers/Chart/BudgetController.php:299-310 | a choice between the two branches: when the limit exceeds spent in absolute value, left is limit + spent (positive) and native left is the converted limit + native spent, with overspent untouched; otherwise overspent and native overspent are the absolute sums, with left untouched; currency, window and spent figures never change |
| Aggregation.LimitExpenses | app/Api/V2/Controllers/Chart/BudgetController.php:279-281 | the listing for a limit's window is well formed: distinct currencies, each filing journals under the budget |
| Aggregation.ConcatMapAppend | app/Api/V2/Controllers/Chart/BudgetController.php:262-264 | appending with array_merge in a loop over a + b gives the result over a followed by the result over b |
| AggregationLemmas.SpentAppend | app/Api/V2/Controllers/Chart/BudgetController.php:236 | spent is additive: the journals of a + b spend what a spends plus what b spends |
| AggregationLemmas.SpentOfExpenses | app/Api/V2/Controllers/Chart/BudgetController.php:227-236 | when every journal amount is an expense (not positive), spent is not positive |
| AggregationLemmas.NativeSpentSplit | app/Api/V2/Controllers/Chart/BudgetController.php:229-237 | native spent is the rate-converted amounts of the other journals plus the recorded foreign amounts of the journals whose foreign currency is the native one |
| AggregationLemmas.NativeSpentAtOneRate | app/Api/V2/Controllers/Chart/BudgetController.php:230-231 | at one rate for every journal and with no journal recorded in the native currency, native spent is spent times that rate |
| AggregationLemmas.ExpenseRowsPerBlock | app/Api/V2/Controllers/Chart/BudgetController.php:201-238 | one row per block, in order, each with the block's currency, the native currency, the window, the sum of only this budget's journals and their native conversion |
| AggregationLemmas.ExpenseRowsLeaveLimitFiguresZero | app/Api/V2/Controllers/Chart/BudgetController.php:216-221 | processExpenses leaves left, native left, overspent and native overspent at zero in every row |
| AggregationLemmas.ExpenseRowsOnePerCurrency | app/Api/V2/Controllers/Chart/BudgetController.php:201-215 | every row's currency is one of the listing's currencies, every listed currency has a row, and no currency has two rows |
| AggregationLemmas.LimitRowsInLimitCurrency | app/Api/V2/Controllers/Chart/BudgetController.php:279-299 | a limit yields at most one row, and none exactly when nothing was spent in its currency; the row is in the limit's currency over the limit's widened window, with the figures of the block in that currency |
| AggregationLemmas.LimitBranches | app/Api/V2/Controllers/Chart/BudgetController.php:286-310 | exactly one branch fills the row: left and native left when the limit exceeds spent in absolute value, overspent and native overspent otherwise, the other pair staying zero; left is positive exactly in the first branch; when every journal of the listing is an expense, spent is not positive and left - overspent = limit + spent |
| AggregationLemmas.LimitsRowsAppend | app/Api/V2/Controllers/Chart/BudgetController.php:262-264 | the rows of limits a + b are those of a followed by those of b, with nothing merged |
| AggregationLemmas.LimitsRowsFromLimits | app/Api/V2/Controllers/Chart/BudgetController.php:257-267 | the per-limit path gives no more rows than there are limits, each in the currency of one of the limits |
| AggregationLemmas.ReshapeAllPerRow | app/Api/V2/Controllers/Chart/BudgetController.php:130-156 | entry i is row i, labelled with the budget's name and with no period, carrying the row's currency and native ids, codes, names and decimal places, its window and both sets of figures |
| AggregationLemmas.BudgetEntriesLabelled | app/Api/V2/Controllers/Chart/BudgetController.php:130-141 | every entry of a budget has the budget's name as label and no period |
| AggregationLemmas.BudgetEntriesWithoutLimits | app/Api/V2/Controllers/Chart/BudgetController.php:117-124 | with no limit, the budget has one entry per listed currency, in order, with left and overspent zero in both currencies |
| AggregationLemmas.BudgetEntriesWithLimits | app/Api/V2/Controllers/Chart/BudgetController.php:125-127 | with limits, the budget has at most one entry per limit, each in the currency of one of the limits |
| AggregationLemmas.DashboardAppend | app/Api/V2/Controllers/Chart/BudgetController.php:99-102 | the entries of budgets a + b are those of a followed by those of b, with nothing merged |
| AggregationLemmas.ExpenseRowsCurrencies | app/Api/V2/Controllers/Chart/BudgetController.php:201-202 | the currency ids processExpenses caches are exactly the currencies of the rows it returns |
| AggregationLemmas.LimitCurrencyIdsAreRows | app/Api/V2/Controllers/Chart/BudgetController.php:291-298 | the ids processLimit caches are exactly the currencies of its rows, and at most the limit's currency |
| AggregationLemmas.LimitsCurrencyIdsAreRows | app/Api/V2/Controllers/Chart/BudgetController.php:262-264 | the ids budgetLimits caches are exactly the currencies of the rows it returns |
| AggregationLemmas.ReshapeAllCurrencies | app/Api/V2/Controllers/Chart/BudgetController.php:130-133 | reshaping keeps the set of currencies of the rows |
| AggregationLemmas.BudgetCurrencyIdsAreEntries | app/Api/V2/Controllers/Chart/BudgetController.php:117-127 | on either path, the ids processBudget caches are exactly the currencies of its entries |
| AggregationLemmas.DashboardCurrencyIdsAreEntries | app/Api/V2/Controllers/Chart/BudgetController.php:99-102 | the ids dashboard caches are exactly the currencies of the entries it returns: no id is looked up that no entry carries |
| AggregationLemmas.DashboardLabels | app/Api/V2/Controllers/Chart/BudgetController.php:96-102 | every dashboard entry has no period and is labelled with the name of one of the active budgets |

## Left out

- Request handling is not modelled: the middleware, the user-group validation in the constructor, `DateRequest` parsing, `clean()` and the JSON response.
- The repositories are inputs: `getActiveBudgets`, `getBudgetLimits` and `listExpenses` are fields of `Services`.
- The expense listing is assumed well formed, because the repository's code is not part of this model. Its keys are the blocks' currency ids, each id occurs once, and every block files journals under the budget it was asked for. A missing budget key would raise in the controller.
- `TransactionCurrency::find` is a total function: a missing currency (a null record) is not modelled.
- `ExchangeRateConverter::getCurrencyRate` is an uninterpreted function of (from, to, date). Its caching and database access are not modelled.
- `steam->positive` is modelled as absolute value, because its source is not part of this model.
- bcmath scale and truncation are not modelled: arithmetic is exact.
- Carbon is reduced to a day and a microsecond: only `endOfDay` is modelled, and `toAtomString` formatting is not.
- The string casts of ids are not modelled: ids stay integers.
- The currency and native symbols are kept in each row, inside its currency records, and dropped by the reshape, as processBudget drops them.
- The `??` default on `$return[$currencyId]` is not modelled as a merge: with distinct currency keys every row is new.
- A journal whose foreign currency is the native one is still looked up at the day's rate, as the code does; the rate is then discarded.
- Logging is not modelled.
- The translation files and the front-end scripts of the repository are not part of this model.
