/**
 The dashboard aggregation as pure functions of the controller's inputs, and what is proved
 about them. Each function is defined the way the controller's loop builds its value (by
 growing a prefix), so the imperative controller can be proved equal to it step by step.
 */
module Aggregation {
  import opened ChartTypes

  // ---------------------------------------------------------------- sums over journals

  /** The sum of the journals' amounts, in their own currency. */
  function Spent(js: seq<Journal>): real
  {
    if js == [] then 0.0 else Spent(js[..|js| - 1]) + js[|js| - 1].amount
  }

  /** A journal whose foreign currency is the native currency is counted at its recorded foreign amount. */
  predicate UsesRecordedForeign(svc: Services, j: Journal) {
    j.foreign.Some? && j.foreign.value.currencyId == svc.native.id
  }

  /** A journal's amount in the native currency. */
  function Converted(svc: Services, from: Currency, j: Journal): real {
    if UsesRecordedForeign(svc, j) then j.foreign.value.amount
    else j.amount * svc.rate(from, svc.native, j.date)
  }

  /** The sum of the journals' amounts converted to the native currency. */
  function NativeSpent(svc: Services, from: Currency, js: seq<Journal>): real
  {
    if js == [] then 0.0 else NativeSpent(svc, from, js[..|js| - 1]) + Converted(svc, from, js[|js| - 1])
  }

  /** Reference split of the native sum: journals converted at the day's rate. */
  function RatedPart(svc: Services, from: Currency, js: seq<Journal>): real
  {
    if js == [] then 0.0
    else
      var j := js[|js| - 1];
      RatedPart(svc, from, js[..|js| - 1]) + (if UsesRecordedForeign(svc, j) then 0.0 else j.amount * svc.rate(from, svc.native, j.date))
  }

  /** Reference split of the native sum: journals already recorded in the native currency. */
  function RecordedPart(svc: Services, js: seq<Journal>): real
  {
    if js == [] then 0.0
    else
      var j := js[|js| - 1];
      RecordedPart(svc, js[..|js| - 1]) + (if UsesRecordedForeign(svc, j) then j.foreign.value.amount else 0.0)
  }

  // ---------------------------------------------------------------- processExpenses

  /** The row processExpenses opens for one currency block and fills from the budget's journals. */
  function ExpenseRow(svc: Services, budgetId: int, block: ExpenseBlock, start: Moment, end: Moment): Row
    requires budgetId in block.budgets
  {
    var journals := block.budgets[budgetId];
    Row(block.currency, svc.native, start, end,
        Spent(journals), NativeSpent(svc, svc.find(block.currency.id), journals),
        0.0, 0.0, 0.0, 0.0)
  }

  /** The rows of processExpenses, one per block, in the listing's order. */
  function ExpenseRows(svc: Services, budgetId: int, blocks: seq<ExpenseBlock>, start: Moment, end: Moment): seq<Row>
    requires FiledUnder(blocks, budgetId)
  {
    if blocks == [] then []
    else
      var last := blocks[|blocks| - 1];
      assert last in blocks;
      ExpenseRows(svc, budgetId, blocks[..|blocks| - 1], start, end) + [ExpenseRow(svc, budgetId, last, start, end)]
  }

  // ---------------------------------------------------------------- processLimit

  /** The blocks processLimit keeps: those in the limit's currency, in order. */
  function FilterCurrency(blocks: seq<ExpenseBlock>, currencyId: int): seq<ExpenseBlock>
  {
    if blocks == [] then []
    else
      var last := blocks[|blocks| - 1];
      FilterCurrency(blocks[..|blocks| - 1], currencyId) + (if last.currency.id == currencyId then [last] else [])
  }

  lemma {:induction false} FilterCurrencyKeeps(blocks: seq<ExpenseBlock>, currencyId: int)
    ensures forall b :: b in FilterCurrency(blocks, currencyId) <==> b in blocks && b.currency.id == currencyId
    ensures DistinctCurrencies(blocks) ==> |FilterCurrency(blocks, currencyId)| <= 1
  {
    if blocks != [] {
      var last := blocks[|blocks| - 1];
      var kept := FilterCurrency(blocks[..|blocks| - 1], currencyId);
      FilterCurrencyKeeps(blocks[..|blocks| - 1], currencyId);
      assert DistinctCurrencies(blocks) ==> DistinctCurrencies(blocks[..|blocks| - 1]);
      assert DistinctCurrencies(blocks) && last.currency.id == currencyId ==>
        forall k :: k in blocks[..|blocks| - 1] ==> k.currency.id != currencyId;
      assert kept != [] ==> kept[0] in kept;
    }
  }

  /** The limit's amount converted at the rate of the limit's first day. */
  function LimitInNative(svc: Services, limit: BudgetLimit): real {
    limit.amount * svc.rate(limit.currency, svc.native, limit.start)
  }

  /**
   The patch processLimit applies to the one row in the limit's currency: "left" when the
   limit exceeds what was spent, "overspent" otherwise, each mirrored in the native currency.
   Stated as one choice between the two branches; the controller's two sequential tests on
   the comparison are proved to agree with it.
   */
  function ApplyLimit(row: Row, amount: real, converted: real): (r: Row)
    ensures r.currency == row.currency && r.native == row.native
    ensures r.start == row.start && r.end == row.end
    ensures r.spent == row.spent && r.nativeSpent == row.nativeSpent
    ensures amount > Positive(row.spent) ==>
      && r.left == amount + row.spent && r.left > 0.0
      && r.nativeLeft == converted + row.nativeSpent
      && r.overspent == row.overspent && r.nativeOverspent == row.nativeOverspent
    ensures amount <= Positive(row.spent) ==>
      && r.overspent == Positive(amount + row.spent)
      && r.nativeOverspent == Positive(converted + row.nativeSpent)
      && r.left == row.left && r.nativeLeft == row.nativeLeft
      && (row.spent <= 0.0 ==> r.overspent == Positive(row.spent) - amount)
  {
    if amount > Positive(row.spent) then
      row.(left := amount + row.spent, nativeLeft := converted + row.nativeSpent)
    else
      row.(overspent := Positive(amount + row.spent), nativeOverspent := Positive(converted + row.nativeSpent))
  }

  /** What processLimit returns for one limit, given the expenses listed in the limit's window. */
  function LimitRows(svc: Services, budgetId: int, limit: BudgetLimit, blocks: seq<ExpenseBlock>): seq<Row>
    requires ExpensesWellFormed(blocks, budgetId)
  {
    FilterCurrencyKeeps(blocks, limit.currency.id);
    var rows := ExpenseRows(svc, budgetId, FilterCurrency(blocks, limit.currency.id), limit.start, EndOfDay(limit.end));
    if |rows| == 1 then [ApplyLimit(rows[0], limit.amount, LimitInNative(svc, limit))] else rows
  }

  /** The expenses processLimit lists: the limit's budget, from its start to the end of its end day. */
  function LimitExpenses(svc: Services, budget: Budget, limit: BudgetLimit): (r: seq<ExpenseBlock>)
    requires ServicesValid(svc)
    ensures ExpensesWellFormed(r, budget.id)
  {
    svc.expensesIn(limit.start, EndOfDay(limit.end), budget)
  }

  // ---------------------------------------------------------------- budgetLimits, processBudget, dashboard

  /** The concatenation of f(x) over xs, in order: PHP's repeated array_merge onto a list. */
  function ConcatMap<T, U>(f: T --> seq<U>, xs: seq<T>): seq<U>
    requires forall i :: 0 <= i < |xs| ==> f.requires(xs[i])
  {
    if xs == [] then [] else ConcatMap(f, xs[..|xs| - 1]) + f(xs[|xs| - 1])
  }

  /** Concatenating over a + b gives the concatenation over a followed by that over b. */
  lemma {:induction false} ConcatMapAppend<T, U>(f: T --> seq<U>, a: seq<T>, b: seq<T>)
    requires forall i :: 0 <= i < |a + b| ==> f.requires((a + b)[i])
    ensures forall i :: 0 <= i < |a| ==> f.requires(a[i])
    ensures forall i :: 0 <= i < |b| ==> f.requires(b[i])
    ensures ConcatMap(f, a + b) == ConcatMap(f, a) + ConcatMap(f, b)
  {
    assert forall i :: 0 <= i < |a| ==> a[i] == (a + b)[i];
    assert forall i :: 0 <= i < |b| ==> b[i] == (a + b)[|a| + i];
    if b == [] {
      assert a + b == a;
    } else {
      var init := b[..|b| - 1];
      assert (a + b)[..|a + b| - 1] == a + init;
      assert forall i :: 0 <= i < |a + init| ==> (a + init)[i] == (a + b)[i];
      ConcatMapAppend(f, a, init);
    }
  }

  /** processLimit as a function of the limit: the expenses in its window, filtered and patched. */
  function RowsOfLimit(svc: Services, budget: Budget): BudgetLimit --> seq<Row>
  {
    limit requires ServicesValid(svc) => LimitRows(svc, budget.id, limit, LimitExpenses(svc, budget, limit))
  }

  /** budgetLimits: the rows of every limit, concatenated in the limits' order. */
  function LimitsRows(svc: Services, budget: Budget, limits: seq<BudgetLimit>): seq<Row>
    requires ServicesValid(svc)
  {
    ConcatMap(RowsOfLimit(svc, budget), limits)
  }

  /** The rows of one budget: the no-limit path when it has no limits in the window, else the per-limit path. */
  function BudgetRows(svc: Services, budget: Budget, start: Moment, end: Moment): seq<Row>
    requires ServicesValid(svc)
  {
    var limits := svc.limitsIn(budget, start, end);
    if |limits| == 0 then ExpenseRows(svc, budget.id, svc.expensesIn(start, end, budget), start, end)
    else LimitsRows(svc, budget, limits)
  }

  /** The chart entry processBudget makes of one row. */
  function Reshape(labelText: string, row: Row): ChartEntry {
    ChartEntry(labelText,
               row.currency.id, row.currency.code, row.currency.name, row.currency.decimalPlaces,
               row.native.id, row.native.code, row.native.name, row.native.decimalPlaces,
               None, row.start, row.end,
               Entries(row.spent, row.left, row.overspent),
               Entries(row.nativeSpent, row.nativeLeft, row.nativeOverspent))
  }

  function ReshapeAll(labelText: string, rows: seq<Row>): seq<ChartEntry>
  {
    if rows == [] then [] else ReshapeAll(labelText, rows[..|rows| - 1]) + [Reshape(labelText, rows[|rows| - 1])]
  }

  /** processBudget: the budget's rows, labelled with its name. */
  function BudgetEntries(svc: Services, budget: Budget, start: Moment, end: Moment): seq<ChartEntry>
    requires ServicesValid(svc)
  {
    ReshapeAll(budget.name, BudgetRows(svc, budget, start, end))
  }

  /** processBudget as a function of the budget. */
  function EntriesOfBudget(svc: Services, start: Moment, end: Moment): Budget --> seq<ChartEntry>
  {
    budget requires ServicesValid(svc) => BudgetEntries(svc, budget, start, end)
  }

  /** dashboard: the entries of every budget, concatenated in the budgets' order. */
  function DashboardEntries(svc: Services, budgets: seq<Budget>, start: Moment, end: Moment): seq<ChartEntry>
    requires ServicesValid(svc)
  {
    ConcatMap(EntriesOfBudget(svc, start, end), budgets)
  }
  // ---------------------------------------------------------------- the currency cache

  /** The union of f(x) over xs. */
  function UnionMap<T>(f: T --> set<int>, xs: seq<T>): set<int>
    requires forall i :: 0 <= i < |xs| ==> f.requires(xs[i])
  {
    if xs == [] then {} else UnionMap(f, xs[..|xs| - 1]) + f(xs[|xs| - 1])
  }

  /** The currency ids processLimit caches: those of the blocks in the limit's currency. */
  function LimitCurrencyIds(svc: Services, budget: Budget, limit: BudgetLimit): set<int>
    requires ServicesValid(svc)
  {
    CurrencyIds(FilterCurrency(LimitExpenses(svc, budget, limit), limit.currency.id))
  }

  function IdsOfLimit(svc: Services, budget: Budget): BudgetLimit --> set<int>
  {
    limit requires ServicesValid(svc) => LimitCurrencyIds(svc, budget, limit)
  }

  /** The currency ids budgetLimits caches: those of every limit. */
  function LimitsCurrencyIds(svc: Services, budget: Budget, limits: seq<BudgetLimit>): set<int>
    requires ServicesValid(svc)
  {
    UnionMap(IdsOfLimit(svc, budget), limits)
  }

  /** The currency ids processBudget caches, on the path it takes. */
  function BudgetCurrencyIds(svc: Services, budget: Budget, start: Moment, end: Moment): set<int>
    requires ServicesValid(svc)
  {
    var limits := svc.limitsIn(budget, start, end);
    if |limits| == 0 then CurrencyIds(svc.expensesIn(start, end, budget))
    else LimitsCurrencyIds(svc, budget, limits)
  }

  function IdsOfBudget(svc: Services, start: Moment, end: Moment): Budget --> set<int>
  {
    budget requires ServicesValid(svc) => BudgetCurrencyIds(svc, budget, start, end)
  }

  /** The currency ids dashboard caches: those of every budget. */
  function DashboardCurrencyIds(svc: Services, budgets: seq<Budget>, start: Moment, end: Moment): set<int>
    requires ServicesValid(svc)
  {
    UnionMap(IdsOfBudget(svc, start, end), budgets)
  }

  /** The currencies of some rows, and of some chart entries. */
  function RowCurrencies(rows: seq<Row>): set<int> {
    set r | r in rows :: r.currency.id
  }

  function EntryCurrencies(entries: seq<ChartEntry>): set<int> {
    set e | e in entries :: e.currencyId
  }

  // ---------------------------------------------------------------- one step of the controller's loops

  /** One more limit: its rows and its cached ids join those of the limits before it. */
  lemma LimitsStep(svc: Services, budget: Budget, limits: seq<BudgetLimit>, k: int)
    requires ServicesValid(svc) && 0 <= k < |limits|
    ensures LimitsRows(svc, budget, limits[..k + 1])
      == LimitsRows(svc, budget, limits[..k]) + LimitRows(svc, budget.id, limits[k], LimitExpenses(svc, budget, limits[k]))
    ensures LimitsCurrencyIds(svc, budget, limits[..k + 1])
      == LimitsCurrencyIds(svc, budget, limits[..k]) + LimitCurrencyIds(svc, budget, limits[k])
  {
    assert limits[..k + 1][..k] == limits[..k];
  }

  /** One more budget: its entries and its cached ids join those of the budgets before it. */
  lemma DashboardStep(svc: Services, budgets: seq<Budget>, k: int, start: Moment, end: Moment)
    requires ServicesValid(svc) && 0 <= k < |budgets|
    ensures DashboardEntries(svc, budgets[..k + 1], start, end)
      == DashboardEntries(svc, budgets[..k], start, end) + BudgetEntries(svc, budgets[k], start, end)
    ensures DashboardCurrencyIds(svc, budgets[..k + 1], start, end)
      == DashboardCurrencyIds(svc, budgets[..k], start, end) + BudgetCurrencyIds(svc, budgets[k], start, end)
  {
    assert budgets[..k + 1][..k] == budgets[..k];
  }
}
