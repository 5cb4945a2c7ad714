/**
 The values the budget dashboard chart works on: currencies, expense journals as the
 operations repository groups them, budgets and budget limits, the per-currency rows the
 controller builds, and the chart entries it returns. Monetary amounts are exact decimals
 (the controller uses bcmath only), modelled as `real`.
 */
module ChartTypes {

  datatype Option<T> = None | Some(value: T)

  // ---------------------------------------------------------------- moments

  /** Microseconds in one day: Carbon's end of day is 23:59:59.999999. */
  const MicrosPerDay: int := 86_400_000_000

  /** A point in time: a day number and the microsecond within that day. */
  datatype Moment = Moment(day: int, micro: int)

  predicate ValidMoment(m: Moment) {
    0 <= m.micro < MicrosPerDay
  }

  predicate NotAfter(a: Moment, b: Moment) {
    a.day < b.day || (a.day == b.day && a.micro <= b.micro)
  }

  /** Carbon's endOfDay(): the last instant of the same day. */
  function EndOfDay(m: Moment): (r: Moment)
    ensures ValidMoment(r) && r.day == m.day
    ensures forall x: Moment :: x.day == m.day && ValidMoment(x) ==> NotAfter(x, r)
  {
    Moment(m.day, MicrosPerDay - 1)
  }

  // ---------------------------------------------------------------- bcmath helpers

  /** Steam's positive(): the amount without its sign. */
  function Positive(x: real): (r: real)
    ensures r >= 0.0
    ensures r == x || r == -x
  {
    if x < 0.0 then -x else x
  }

  /** bccomp: 1 when a is larger, 0 when equal, -1 when smaller. */
  function Compare(a: real, b: real): (c: int)
    ensures -1 <= c <= 1
    ensures c == 1 <==> a > b
    ensures c == 0 <==> a == b
  {
    if a > b then 1 else if a == b then 0 else -1
  }

  // ---------------------------------------------------------------- entities

  /** A transaction currency record. */
  datatype Currency = Currency(id: int, code: string, name: string, symbol: string, decimalPlaces: int)

  /** The foreign part of a journal: its foreign currency and the amount recorded in it. */
  datatype Foreign = Foreign(currencyId: int, amount: real)

  /** One expense journal as listed by the operations repository. */
  datatype Journal = Journal(amount: real, foreign: Option<Foreign>, date: Moment)

  /**
   One currency block of the expense listing: the block's currency and, per budget id,
   the journals filed under that budget.
   */
  datatype ExpenseBlock = ExpenseBlock(currency: Currency, budgets: map<int, seq<Journal>>)

  datatype Budget = Budget(id: int, name: string)

  /** A cap on spending for one budget over [start, end], in one currency. */
  datatype BudgetLimit = BudgetLimit(currency: Currency, amount: real, start: Moment, end: Moment)

  /** The intermediate per-currency row built by processExpenses and patched by processLimit. */
  datatype Row = Row(
    currency: Currency,
    native: Currency,
    start: Moment,
    end: Moment,
    spent: real,
    nativeSpent: real,
    left: real,
    nativeLeft: real,
    overspent: real,
    nativeOverspent: real)

  datatype Entries = Entries(spent: real, left: real, overspent: real)

  /** One element of the dashboard's answer, as shaped by processBudget. */
  datatype ChartEntry = ChartEntry(
    labelText: string,  // the entry's "label"
    currencyId: int,
    currencyCode: string,
    currencyName: string,
    currencyDecimalPlaces: int,
    nativeId: int,
    nativeCode: string,
    nativeName: string,
    nativeDecimalPlaces: int,
    period: Option<string>,
    start: Moment,
    end: Moment,
    entries: Entries,
    nativeEntries: Entries)

  /**
   What the controller gets from outside: the user's native currency, the currency lookup,
   the exchange-rate converter, and the three repository queries (active budgets, the limits
   of a budget in a window, the expenses of a budget in a window grouped per currency).
   */
  datatype Services = Services(
    native: Currency,
    find: int -> Currency,
    rate: (Currency, Currency, Moment) -> real,
    activeBudgets: seq<Budget>,
    limitsIn: (Budget, Moment, Moment) -> seq<BudgetLimit>,
    expensesIn: (Moment, Moment, Budget) -> seq<ExpenseBlock>)

  // ---------------------------------------------------------------- shape of the expense listing

  /** The listing is keyed by currency id, so no currency occurs twice. */
  ghost predicate DistinctCurrencies(blocks: seq<ExpenseBlock>) {
    forall i, j :: 0 <= i < j < |blocks| ==> blocks[i].currency.id != blocks[j].currency.id
  }

  /** Every block files journals under the budget the listing was asked for. */
  ghost predicate FiledUnder(blocks: seq<ExpenseBlock>, budgetId: int) {
    forall b :: b in blocks ==> budgetId in b.budgets
  }

  ghost predicate ExpensesWellFormed(blocks: seq<ExpenseBlock>, budgetId: int) {
    DistinctCurrencies(blocks) && FiledUnder(blocks, budgetId)
  }

  /** The expense query, asked for one budget, always answers with a well-formed listing. */
  ghost predicate ServicesValid(svc: Services) {
    forall s, e, b :: ExpensesWellFormed(svc.expensesIn(s, e, b), b.id)
  }

  function CurrencyIds(blocks: seq<ExpenseBlock>): set<int> {
    set b | b in blocks :: b.currency.id
  }

  /** Growing a prefix of the listing by one block adds that block's currency id. */
  lemma CurrencyIdsGrow(blocks: seq<ExpenseBlock>, i: int)
    requires 0 <= i < |blocks|
    ensures CurrencyIds(blocks[..i + 1]) == CurrencyIds(blocks[..i]) + {blocks[i].currency.id}
  {
    assert blocks[..i + 1] == blocks[..i] + [blocks[i]];
  }
}
