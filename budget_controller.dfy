/**
 The chart controller for the budget dashboard. It holds the services it was given and a
 per-request cache of currency records keyed by currency id. Each method is proved to return
 what the corresponding function of the Aggregation module describes and to only extend the
 cache, looking up every currency id at most once.
 */
module BudgetChart {
  import opened ChartTypes
  import opened Aggregation

  class BudgetController {
    /** The native currency, the currency lookup, the rate converter and the repositories. */
    const svc: Services
    /** The currency records already looked up, by currency id. */
    var currencies: map<int, Currency>
    /** Every currency id handed to the lookup so far, in order. */
    ghost var lookups: seq<int>

    ghost predicate Valid()
      reads this
    {
      && ServicesValid(svc)
      && (forall c :: c in currencies <==> c in lookups)
      && (forall i, j :: 0 <= i < j < |lookups| ==> lookups[i] != lookups[j])
      && (forall c :: c in currencies ==> currencies[c] == svc.find(c))
    }

    /**
     The lookup log only grows. With Valid() in both states this means the cache only grows:
     no id leaves it and, every record being the lookup's answer, none is overwritten.
     */
    twostate predicate CacheExtends()
      reads this
    {
      old(lookups) <= lookups
    }

    constructor (svc: Services)
      requires ServicesValid(svc)
      ensures Valid() && this.svc == svc
      ensures currencies == map[] && lookups == []
    {
      this.svc := svc;
      currencies := map[];
      lookups := [];
    }

    /**
     The inner loop of processExpenses: adds up the journals' amounts and their native
     conversions (the recorded foreign amount when the foreign currency is the native one).
     */
    method SumJournals(from: Currency, journals: seq<Journal>) returns (spent: real, nativeSpent: real)
      ensures spent == Spent(journals)
      ensures nativeSpent == NativeSpent(svc, from, journals)
    {
      spent, nativeSpent := 0.0, 0.0;
      for k := 0 to |journals|
        invariant spent == Spent(journals[..k])
        invariant nativeSpent == NativeSpent(svc, from, journals[..k])
      {
        var journal := journals[k];
        var rate := svc.rate(from, svc.native, journal.date);
        var convertedAmount := journal.amount * rate;
        if journal.foreign.Some? && journal.foreign.value.currencyId == svc.native.id {
          convertedAmount := journal.foreign.value.amount;
        }
        assert journals[..k + 1][..k] == journals[..k];
        spent := spent + journal.amount;
        nativeSpent := nativeSpent + convertedAmount;
      }
      assert journals[..|journals|] == journals;
    }

    /**
     The cache line of processExpenses: the cached record of a currency, looked up and stored
     only when the id is not cached yet.
     */
    method CacheCurrency(currencyId: int) returns (currency: Currency)
      requires Valid()
      modifies this
      ensures Valid() && CacheExtends()
      ensures currency == svc.find(currencyId)
      ensures currencies == old(currencies)[currencyId := currency]
      ensures currencyId in old(currencies) ==> lookups == old(lookups)
      ensures currencyId !in old(currencies) ==> lookups == old(lookups) + [currencyId]
    {
      if currencyId !in currencies {
        currencies := currencies[currencyId := svc.find(currencyId)];
        lookups := lookups + [currencyId];
      }
      currency := currencies[currencyId];
    }

    /** processExpenses: one row per currency block, caching each block's currency record. */
    method ProcessExpenses(budgetId: int, blocks: seq<ExpenseBlock>, start: Moment, end: Moment) returns (rows: seq<Row>)
      requires Valid() && ExpensesWellFormed(blocks, budgetId)
      modifies this
      ensures Valid() && CacheExtends()
      ensures currencies.Keys == old(currencies).Keys + CurrencyIds(blocks)
      ensures forall k :: |old(lookups)| <= k < |lookups| ==> lookups[k] !in old(currencies)
      ensures rows == ExpenseRows(svc, budgetId, blocks, start, end)
    {
      rows := [];
      for i := 0 to |blocks|
        invariant Valid() && CacheExtends()
        invariant currencies.Keys == old(currencies).Keys + CurrencyIds(blocks[..i])
        invariant forall k :: |old(lookups)| <= k < |lookups| ==> lookups[k] !in old(currencies)
        invariant rows == ExpenseRows(svc, budgetId, blocks[..i], start, end)
      {
        var block := blocks[i];
        assert block in blocks;
        CurrencyIdsGrow(blocks, i);
        assert blocks[..i + 1][..i] == blocks[..i];
        var currency := CacheCurrency(block.currency.id);
        var spent, nativeSpent := SumJournals(currency, block.budgets[budgetId]);
        rows := rows + [Row(block.currency, svc.native, start, end, spent, nativeSpent, 0.0, 0.0, 0.0, 0.0)];
      }
      assert blocks[..|blocks|] == blocks;
    }

    /** noBudgetLimits: the expenses of the whole window, grouped per currency. */
    method NoBudgetLimits(budget: Budget, start: Moment, end: Moment) returns (rows: seq<Row>)
      requires Valid()
      modifies this
      ensures Valid() && CacheExtends()
      ensures currencies.Keys == old(currencies).Keys + CurrencyIds(svc.expensesIn(start, end, budget))
      ensures rows == ExpenseRows(svc, budget.id, svc.expensesIn(start, end, budget), start, end)
    {
      var spent := svc.expensesIn(start, end, budget);
      rows := ProcessExpenses(budget.id, spent, start, end);
    }

    /** The filtering loop of processLimit: keeps the blocks in the limit's currency. */
    static method FilterLimitCurrency(spent: seq<ExpenseBlock>, limitCurrencyId: int) returns (filtered: seq<ExpenseBlock>)
      ensures filtered == FilterCurrency(spent, limitCurrencyId)
    {
      filtered := [];
      for k := 0 to |spent|
        invariant filtered == FilterCurrency(spent[..k], limitCurrencyId)
      {
        if spent[k].currency.id == limitCurrencyId {
          filtered := filtered + [spent[k]];
        }
        assert spent[..k + 1][..k] == spent[..k];
      }
      assert spent[..|spent|] == spent;
    }

    /**
     The branch of processLimit that fills in the single row: two sequential tests on one
     comparison, proved to run exactly one of the two patches ApplyLimit chooses between.
     */
    static method PatchWithLimit(row: Row, amount: real, converted: real) returns (patched: Row)
      ensures patched == ApplyLimit(row, amount, converted)
    {
      patched := row;
      var compare := Compare(amount, Positive(patched.spent));
      if compare == 1 {
        patched := patched.(left := amount + patched.spent, nativeLeft := converted + patched.nativeSpent);
      }
      if compare <= 0 {
        patched := patched.(overspent := Positive(amount + patched.spent),
                            nativeOverspent := Positive(converted + patched.nativeSpent));
      }
    }

    /**
     processLimit: the expenses from the limit's start to the end of its end day, in the
     limit's currency only, with "left" or "overspent" filled in from the limit's amount.
     */
    method ProcessLimit(budget: Budget, limit: BudgetLimit) returns (result: seq<Row>)
      requires Valid()
      modifies this
      ensures Valid() && CacheExtends()
      ensures currencies.Keys == old(currencies).Keys + LimitCurrencyIds(svc, budget, limit)
      ensures result == LimitRows(svc, budget.id, limit, LimitExpenses(svc, budget, limit))
    {
      var end := EndOfDay(limit.end);
      var spent := svc.expensesIn(limit.start, end, budget);
      var limitCurrencyId := limit.currency.id;
      var rate := svc.rate(limit.currency, svc.native, limit.start);
      var convertedLimitAmount := limit.amount * rate;
      assert convertedLimitAmount == LimitInNative(svc, limit);
      var filtered := FilterLimitCurrency(spent, limitCurrencyId);
      FilterCurrencyKeeps(spent, limitCurrencyId);
      result := ProcessExpenses(budget.id, filtered, limit.start, end);
      if |result| == 1 {
        var patched := PatchWithLimit(result[0], limit.amount, convertedLimitAmount);
        result := [patched];
      }
      assert spent == LimitExpenses(svc, budget, limit);
    }

    /** budgetLimits: the rows of every limit, appended in the limits' order. */
    method BudgetLimits(budget: Budget, limits: seq<BudgetLimit>) returns (data: seq<Row>)
      requires Valid()
      modifies this
      ensures Valid() && CacheExtends()
      ensures currencies.Keys == old(currencies).Keys + LimitsCurrencyIds(svc, budget, limits)
      ensures data == LimitsRows(svc, budget, limits)
    {
      data := [];
      for k := 0 to |limits|
        invariant Valid() && CacheExtends()
        invariant currencies.Keys == old(currencies).Keys + LimitsCurrencyIds(svc, budget, limits[..k])
        invariant data == LimitsRows(svc, budget, limits[..k])
      {
        var rows := ProcessLimit(budget, limits[k]);
        LimitsStep(svc, budget, limits, k);
        data := data + rows;
      }
      assert limits[..|limits|] == limits;
    }

    /** The reshaping loop of processBudget: one chart entry per row, labelled with the budget's name. */
    static method ReshapeRows(labelText: string, rows: seq<Row>) returns (result: seq<ChartEntry>)
      ensures result == ReshapeAll(labelText, rows)
    {
      result := [];
      for k := 0 to |rows|
        invariant result == ReshapeAll(labelText, rows[..k])
      {
        var current := Reshape(labelText, rows[k]);
        assert rows[..k + 1][..k] == rows[..k];
        result := result + [current];
      }
      assert rows[..|rows|] == rows;
    }

    /** processBudget: the no-limit or per-limit rows, reshaped into labelled chart entries. */
    method ProcessBudget(budget: Budget, start: Moment, end: Moment) returns (result: seq<ChartEntry>)
      requires Valid()
      modifies this
      ensures Valid() && CacheExtends()
      ensures currencies.Keys == old(currencies).Keys + BudgetCurrencyIds(svc, budget, start, end)
      ensures result == BudgetEntries(svc, budget, start, end)
    {
      var limits := svc.limitsIn(budget, start, end);
      var rows: seq<Row> := [];
      if |limits| == 0 {
        rows := NoBudgetLimits(budget, start, end);
      }
      if |limits| > 0 {
        rows := BudgetLimits(budget, limits);
      }
      result := ReshapeRows(budget.name, rows);
    }

    /** dashboard: the entries of every active budget, appended in the budgets' order. */
    method Dashboard(start: Moment, end: Moment) returns (data: seq<ChartEntry>)
      requires Valid()
      modifies this
      ensures Valid() && CacheExtends()
      ensures currencies.Keys == old(currencies).Keys + DashboardCurrencyIds(svc, svc.activeBudgets, start, end)
      ensures data == DashboardEntries(svc, svc.activeBudgets, start, end)
    {
      var budgets := svc.activeBudgets;
      data := [];
      for k := 0 to |budgets|
        invariant Valid() && CacheExtends()
        invariant currencies.Keys == old(currencies).Keys + DashboardCurrencyIds(svc, budgets[..k], start, end)
        invariant data == DashboardEntries(svc, budgets[..k], start, end)
      {
        var entries := ProcessBudget(budgets[k], start, end);
        DashboardStep(svc, budgets, k, start, end);
        data := data + entries;
      }
      assert budgets[..|budgets|] == budgets;
    }
  }
}
