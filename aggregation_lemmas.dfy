/**
 Properties of the dashboard aggregation: what the no-limit rows contain, how native amounts
 relate to the amounts spent, how a limit selects and patches its row, and how budgets and
 limits are concatenated.
 */
module AggregationLemmas {
  import opened ChartTypes
  import opened Aggregation

  // ---------------------------------------------------------------- sums over journals

  /** Spending is additive over journal lists: splitting the journals splits the sum. */
  lemma {:induction false} SpentAppend(a: seq<Journal>, b: seq<Journal>)
    ensures Spent(a + b) == Spent(a) + Spent(b)
  {
    if b == [] {
      assert a + b == a;
    } else {
      assert (a + b)[..|a + b| - 1] == a + b[..|b| - 1];
      SpentAppend(a, b[..|b| - 1]);
    }
  }

  /** Expenses are recorded as negative amounts, so their sum is never positive. */
  lemma {:induction false} SpentOfExpenses(js: seq<Journal>)
    requires forall j :: j in js ==> j.amount <= 0.0
    ensures Spent(js) <= 0.0
  {
    if js != [] {
      assert js[|js| - 1] in js;
      assert forall j :: j in js[..|js| - 1] ==> j in js;
      SpentOfExpenses(js[..|js| - 1]);
    }
  }

  /**
   The native sum is the rate-converted amounts of the journals not recorded in the native
   currency plus the recorded foreign amounts of those that are.
   */
  lemma {:induction false} NativeSpentSplit(svc: Services, from: Currency, js: seq<Journal>)
    ensures NativeSpent(svc, from, js) == RatedPart(svc, from, js) + RecordedPart(svc, js)
  {
    if js != [] {
      NativeSpentSplit(svc, from, js[..|js| - 1]);
    }
  }

  /** At one rate for all journals and with no foreign-native journal, native spent is spent times the rate. */
  lemma {:induction false} NativeSpentAtOneRate(svc: Services, from: Currency, js: seq<Journal>, rate: real)
    requires forall j :: j in js ==> !UsesRecordedForeign(svc, j) && svc.rate(from, svc.native, j.date) == rate
    ensures NativeSpent(svc, from, js) == rate * Spent(js)
  {
    if js != [] {
      var prefix, last := js[..|js| - 1], js[|js| - 1];
      assert last in js;
      assert forall j :: j in prefix ==> j in js;
      NativeSpentAtOneRate(svc, from, prefix, rate);
      calc {
        NativeSpent(svc, from, js);
        NativeSpent(svc, from, prefix) + last.amount * rate;
        rate * Spent(prefix) + rate * last.amount;
        rate * (Spent(prefix) + last.amount);
      }
    }
  }

  // ---------------------------------------------------------------- processExpenses

  /**
   processExpenses makes row i from block i: the block's currency, the native currency, the
   window, the sum of the budget's journals and its native conversion.
   */
  lemma {:induction false} ExpenseRowsPerBlock(svc: Services, budgetId: int, blocks: seq<ExpenseBlock>, start: Moment, end: Moment)
    requires FiledUnder(blocks, budgetId)
    ensures var rows := ExpenseRows(svc, budgetId, blocks, start, end);
      && |rows| == |blocks|
      && forall i :: 0 <= i < |blocks| ==>
        && budgetId in blocks[i].budgets
        && rows[i].currency == blocks[i].currency
        && rows[i].native == svc.native
        && rows[i].start == start && rows[i].end == end
        && rows[i].spent == Spent(blocks[i].budgets[budgetId])
        && rows[i].nativeSpent == NativeSpent(svc, svc.find(blocks[i].currency.id), blocks[i].budgets[budgetId])
  {
    if blocks != [] {
      var prefix := blocks[..|blocks| - 1];
      assert forall b :: b in prefix ==> b in blocks;
      assert blocks[|blocks| - 1] in blocks;
      ExpenseRowsPerBlock(svc, budgetId, prefix, start, end);
      assert forall i :: 0 <= i < |prefix| ==> prefix[i] == blocks[i];
    }
  }

  /** Without a limit, "left" and "overspent" stay zero in both currencies. */
  lemma {:induction false} ExpenseRowsLeaveLimitFiguresZero(svc: Services, budgetId: int, blocks: seq<ExpenseBlock>, start: Moment, end: Moment)
    requires FiledUnder(blocks, budgetId)
    ensures forall r :: r in ExpenseRows(svc, budgetId, blocks, start, end) ==>
      r.left == 0.0 && r.nativeLeft == 0.0 && r.overspent == 0.0 && r.nativeOverspent == 0.0
  {
    if blocks != [] {
      var prefix := blocks[..|blocks| - 1];
      assert forall b :: b in prefix ==> b in blocks;
      assert blocks[|blocks| - 1] in blocks;
      ExpenseRowsLeaveLimitFiguresZero(svc, budgetId, prefix, start, end);
    }
  }

  /** processExpenses answers with exactly one row per currency of the listing and no other rows. */
  lemma ExpenseRowsOnePerCurrency(svc: Services, budgetId: int, blocks: seq<ExpenseBlock>, start: Moment, end: Moment)
    requires ExpensesWellFormed(blocks, budgetId)
    ensures var rows := ExpenseRows(svc, budgetId, blocks, start, end);
      && (forall r :: r in rows ==> r.currency.id in CurrencyIds(blocks))
      && (forall c :: c in CurrencyIds(blocks) ==> exists r :: r in rows && r.currency.id == c)
      && (forall i, j :: 0 <= i < j < |rows| ==> rows[i].currency.id != rows[j].currency.id)
  {
    var rows := ExpenseRows(svc, budgetId, blocks, start, end);
    ExpenseRowsPerBlock(svc, budgetId, blocks, start, end);
    forall c | c in CurrencyIds(blocks)
      ensures exists r :: r in rows && r.currency.id == c
    {
      var b :| b in blocks && b.currency.id == c;
      var i :| 0 <= i < |blocks| && blocks[i] == b;
      assert rows[i] in rows;
    }
    forall r | r in rows
      ensures r.currency.id in CurrencyIds(blocks)
    {
      var i :| 0 <= i < |rows| && rows[i] == r;
      assert blocks[i] in blocks;
    }
  }

  // ---------------------------------------------------------------- processLimit

  /**
   A limit yields at most one row, in its own currency and over its own window, and none
   when nothing was spent in that currency; the row's figures come from the block in the
   limit's currency only.
   */
  lemma LimitRowsInLimitCurrency(svc: Services, budgetId: int, limit: BudgetLimit, blocks: seq<ExpenseBlock>)
    requires ExpensesWellFormed(blocks, budgetId)
    ensures var rows := LimitRows(svc, budgetId, limit, blocks);
      && |rows| <= 1
      && (rows == [] <==> forall b :: b in blocks ==> b.currency.id != limit.currency.id)
      && (forall r :: r in rows ==>
            && r.currency.id == limit.currency.id && r.native == svc.native
            && r.start == limit.start && r.end == EndOfDay(limit.end))
      && (rows != [] ==>
            exists b :: (b in blocks && b.currency.id == limit.currency.id && budgetId in b.budgets
              && rows[0].spent == Spent(b.budgets[budgetId])
              && rows[0].nativeSpent == NativeSpent(svc, svc.find(limit.currency.id), b.budgets[budgetId])))
  {
    var filtered := FilterCurrency(blocks, limit.currency.id);
    FilterCurrencyKeeps(blocks, limit.currency.id);
    ExpenseRowsPerBlock(svc, budgetId, filtered, limit.start, EndOfDay(limit.end));
    if filtered != [] {
      assert filtered[0] in filtered;
    }
  }

  /**
   Exactly one of the two branches patches the limit's row: "left" (limit minus what was
   spent, positive) when the limit exceeds |spent|, "overspent" otherwise; the other pair
   stays zero, and for expenses "left - overspent" is the limit plus the (negative) spent.
   */
  lemma LimitBranches(svc: Services, budgetId: int, limit: BudgetLimit, blocks: seq<ExpenseBlock>)
    requires ExpensesWellFormed(blocks, budgetId)
    requires LimitRows(svc, budgetId, limit, blocks) != []
    ensures var r := LimitRows(svc, budgetId, limit, blocks)[0];
      && (limit.amount > Positive(r.spent) ==>
            && r.left == limit.amount + r.spent
            && r.nativeLeft == LimitInNative(svc, limit) + r.nativeSpent
            && r.overspent == 0.0 && r.nativeOverspent == 0.0)
      && (limit.amount <= Positive(r.spent) ==>
            && r.overspent == Positive(limit.amount + r.spent)
            && r.nativeOverspent == Positive(LimitInNative(svc, limit) + r.nativeSpent)
            && r.left == 0.0 && r.nativeLeft == 0.0)
      && (r.left > 0.0 <==> limit.amount > Positive(r.spent))
      && (r.spent <= 0.0 ==> r.left - r.overspent == limit.amount + r.spent)
      && ((forall b, j :: b in blocks && budgetId in b.budgets && j in b.budgets[budgetId] ==> j.amount <= 0.0) ==>
            r.spent <= 0.0)
  {
    var filtered := FilterCurrency(blocks, limit.currency.id);
    FilterCurrencyKeeps(blocks, limit.currency.id);
    var rows := ExpenseRows(svc, budgetId, filtered, limit.start, EndOfDay(limit.end));
    ExpenseRowsPerBlock(svc, budgetId, filtered, limit.start, EndOfDay(limit.end));
    ExpenseRowsLeaveLimitFiguresZero(svc, budgetId, filtered, limit.start, EndOfDay(limit.end));
    assert rows[0] in rows;
    LimitRowsInLimitCurrency(svc, budgetId, limit, blocks);
    var b :| b in blocks && b.currency.id == limit.currency.id && budgetId in b.budgets
      && LimitRows(svc, budgetId, limit, blocks)[0].spent == Spent(b.budgets[budgetId]);
    if forall b, j :: b in blocks && budgetId in b.budgets && j in b.budgets[budgetId] ==> j.amount <= 0.0 {
      SpentOfExpenses(b.budgets[budgetId]);
    }
  }

  // ---------------------------------------------------------------- budgetLimits, processBudget, dashboard

  /** budgetLimits concatenates per-limit rows in order: the rows of a + b are those of a, then those of b. */
  lemma LimitsRowsAppend(svc: Services, budget: Budget, a: seq<BudgetLimit>, b: seq<BudgetLimit>)
    requires ServicesValid(svc)
    ensures LimitsRows(svc, budget, a + b) == LimitsRows(svc, budget, a) + LimitsRows(svc, budget, b)
  {
    ConcatMapAppend(RowsOfLimit(svc, budget), a, b);
  }

  /** The per-limit path gives at most one row per limit, each in the currency of one of the limits. */
  lemma {:induction false} LimitsRowsFromLimits(svc: Services, budget: Budget, limits: seq<BudgetLimit>)
    requires ServicesValid(svc)
    ensures var rows := LimitsRows(svc, budget, limits);
      && |rows| <= |limits|
      && forall r :: r in rows ==> exists l :: l in limits && r.currency.id == l.currency.id
  {
    if limits != [] {
      var prefix, last := limits[..|limits| - 1], limits[|limits| - 1];
      LimitsRowsFromLimits(svc, budget, prefix);
      LimitRowsInLimitCurrency(svc, budget.id, last, LimitExpenses(svc, budget, last));
      assert last in limits;
      assert forall l :: l in prefix ==> l in limits;
    }
  }

  /** processBudget's reshaping: entry i is row i, labelled with the budget's name and without a period. */
  lemma {:induction false} ReshapeAllPerRow(labelText: string, rows: seq<Row>)
    ensures var entries := ReshapeAll(labelText, rows);
      && |entries| == |rows|
      && forall i :: 0 <= i < |rows| ==>
        && entries[i].labelText == labelText && entries[i].period == None
        && entries[i].currencyId == rows[i].currency.id && entries[i].nativeId == rows[i].native.id
        && entries[i].currencyCode == rows[i].currency.code && entries[i].nativeCode == rows[i].native.code
        && entries[i].currencyName == rows[i].currency.name && entries[i].nativeName == rows[i].native.name
        && entries[i].currencyDecimalPlaces == rows[i].currency.decimalPlaces
        && entries[i].nativeDecimalPlaces == rows[i].native.decimalPlaces
        && entries[i].start == rows[i].start && entries[i].end == rows[i].end
        && entries[i].entries == Entries(rows[i].spent, rows[i].left, rows[i].overspent)
        && entries[i].nativeEntries == Entries(rows[i].nativeSpent, rows[i].nativeLeft, rows[i].nativeOverspent)
  {
    if rows != [] {
      ReshapeAllPerRow(labelText, rows[..|rows| - 1]);
    }
  }

  /** Every entry of processBudget carries the budget's name as label and no period. */
  lemma BudgetEntriesLabelled(svc: Services, budget: Budget, start: Moment, end: Moment)
    requires ServicesValid(svc)
    ensures forall e :: e in BudgetEntries(svc, budget, start, end) ==> e.labelText == budget.name && e.period == None
  {
    var rows := BudgetRows(svc, budget, start, end);
    ReshapeAllPerRow(budget.name, rows);
    var entries := ReshapeAll(budget.name, rows);
    assert forall e :: e in entries ==> exists i :: 0 <= i < |entries| && entries[i] == e;
  }

  /**
   With no limit in the window, processBudget takes the no-limit path: one entry per listed
   currency, in the listing's order, with no "left" or "overspent" in either currency.
   */
  lemma BudgetEntriesWithoutLimits(svc: Services, budget: Budget, start: Moment, end: Moment)
    requires ServicesValid(svc)
    requires |svc.limitsIn(budget, start, end)| == 0
    ensures var entries := BudgetEntries(svc, budget, start, end);
      var listed := svc.expensesIn(start, end, budget);
      && |entries| == |listed|
      && forall i :: 0 <= i < |entries| ==>
           && entries[i].currencyId == listed[i].currency.id
           && entries[i].entries.left == 0.0 && entries[i].entries.overspent == 0.0
           && entries[i].nativeEntries.left == 0.0 && entries[i].nativeEntries.overspent == 0.0
  {
    var listed := svc.expensesIn(start, end, budget);
    var rows := ExpenseRows(svc, budget.id, listed, start, end);
    assert BudgetRows(svc, budget, start, end) == rows;
    ReshapeAllPerRow(budget.name, rows);
    ExpenseRowsPerBlock(svc, budget.id, listed, start, end);
    ExpenseRowsLeaveLimitFiguresZero(svc, budget.id, listed, start, end);
    assert forall i :: 0 <= i < |rows| ==> rows[i] in rows;
  }

  /**
   With limits in the window, processBudget takes the per-limit path: at most one entry per
   limit, each in the currency of one of the limits.
   */
  lemma BudgetEntriesWithLimits(svc: Services, budget: Budget, start: Moment, end: Moment)
    requires ServicesValid(svc)
    requires |svc.limitsIn(budget, start, end)| > 0
    ensures var entries := BudgetEntries(svc, budget, start, end);
      var limits := svc.limitsIn(budget, start, end);
      && |entries| <= |limits|
      && forall e :: e in entries ==> exists l :: l in limits && e.currencyId == l.currency.id
  {
    var limits := svc.limitsIn(budget, start, end);
    var rows := LimitsRows(svc, budget, limits);
    assert BudgetRows(svc, budget, start, end) == rows;
    var entries := ReshapeAll(budget.name, rows);
    ReshapeAllPerRow(budget.name, rows);
    LimitsRowsFromLimits(svc, budget, limits);
    forall e | e in entries
      ensures exists l :: l in limits && e.currencyId == l.currency.id
    {
      var i :| 0 <= i < |entries| && entries[i] == e;
      assert rows[i] in rows;
    }
  }

  /** dashboard concatenates per-budget entries in order, never merging entries: a + b gives a's, then b's. */
  lemma DashboardAppend(svc: Services, a: seq<Budget>, b: seq<Budget>, start: Moment, end: Moment)
    requires ServicesValid(svc)
    ensures DashboardEntries(svc, a + b, start, end) == DashboardEntries(svc, a, start, end) + DashboardEntries(svc, b, start, end)
  {
    ConcatMapAppend(EntriesOfBudget(svc, start, end), a, b);
  }

  /** Every dashboard entry is labelled with the name of one of the budgets and has no period. */
  lemma {:induction false} DashboardLabels(svc: Services, budgets: seq<Budget>, start: Moment, end: Moment)
    requires ServicesValid(svc)
    ensures forall e :: e in DashboardEntries(svc, budgets, start, end) ==>
      e.period == None && exists b :: b in budgets && e.labelText == b.name
  {
    if budgets != [] {
      var prefix, last := budgets[..|budgets| - 1], budgets[|budgets| - 1];
      DashboardLabels(svc, prefix, start, end);
      BudgetEntriesLabelled(svc, last, start, end);
      assert last in budgets;
      assert forall b :: b in prefix ==> b in budgets;
    }
  }

  // ---------------------------------------------------------------- the currency cache

  lemma RowCurrenciesAppend(a: seq<Row>, b: seq<Row>)
    ensures RowCurrencies(a + b) == RowCurrencies(a) + RowCurrencies(b)
  {
    assert forall r :: r in a + b <==> r in a || r in b;
  }

  lemma EntryCurrenciesAppend(a: seq<ChartEntry>, b: seq<ChartEntry>)
    ensures EntryCurrencies(a + b) == EntryCurrencies(a) + EntryCurrencies(b)
  {
    assert forall e :: e in a + b <==> e in a || e in b;
  }

  /** processExpenses caches exactly the currencies of the rows it returns. */
  lemma ExpenseRowsCurrencies(svc: Services, budgetId: int, blocks: seq<ExpenseBlock>, start: Moment, end: Moment)
    requires FiledUnder(blocks, budgetId)
    ensures RowCurrencies(ExpenseRows(svc, budgetId, blocks, start, end)) == CurrencyIds(blocks)
  {
    var rows := ExpenseRows(svc, budgetId, blocks, start, end);
    ExpenseRowsPerBlock(svc, budgetId, blocks, start, end);
    forall c | c in CurrencyIds(blocks)
      ensures c in RowCurrencies(rows)
    {
      var i :| 0 <= i < |blocks| && blocks[i].currency.id == c;
      assert rows[i] in rows;
    }
    forall c | c in RowCurrencies(rows)
      ensures c in CurrencyIds(blocks)
    {
      var i :| 0 <= i < |rows| && rows[i].currency.id == c;
      assert blocks[i] in blocks;
    }
  }

  /**
   processLimit caches exactly the currencies of the rows it returns: the limit's currency when
   something was spent in it, nothing otherwise.
   */
  lemma LimitCurrencyIdsAreRows(svc: Services, budget: Budget, limit: BudgetLimit)
    requires ServicesValid(svc)
    ensures LimitCurrencyIds(svc, budget, limit) == RowCurrencies(RowsOfLimit(svc, budget)(limit))
    ensures LimitCurrencyIds(svc, budget, limit) <= {limit.currency.id}
  {
    var blocks := LimitExpenses(svc, budget, limit);
    var filtered := FilterCurrency(blocks, limit.currency.id);
    FilterCurrencyKeeps(blocks, limit.currency.id);
    var rows := ExpenseRows(svc, budget.id, filtered, limit.start, EndOfDay(limit.end));
    ExpenseRowsCurrencies(svc, budget.id, filtered, limit.start, EndOfDay(limit.end));
    if |rows| == 1 {
      assert RowCurrencies([ApplyLimit(rows[0], limit.amount, LimitInNative(svc, limit))]) == {rows[0].currency.id};
      assert RowCurrencies(rows) == {rows[0].currency.id};
    }
  }

  /** budgetLimits caches exactly the currencies of the rows it returns. */
  lemma {:induction false} LimitsCurrencyIdsAreRows(svc: Services, budget: Budget, limits: seq<BudgetLimit>)
    requires ServicesValid(svc)
    ensures LimitsCurrencyIds(svc, budget, limits) == RowCurrencies(LimitsRows(svc, budget, limits))
  {
    if limits != [] {
      var prefix, last := limits[..|limits| - 1], limits[|limits| - 1];
      LimitsCurrencyIdsAreRows(svc, budget, prefix);
      LimitCurrencyIdsAreRows(svc, budget, last);
      RowCurrenciesAppend(LimitsRows(svc, budget, prefix), RowsOfLimit(svc, budget)(last));
    }
  }

  /** Reshaping keeps the set of currencies. */
  lemma ReshapeAllCurrencies(labelText: string, rows: seq<Row>)
    ensures EntryCurrencies(ReshapeAll(labelText, rows)) == RowCurrencies(rows)
  {
    var entries := ReshapeAll(labelText, rows);
    ReshapeAllPerRow(labelText, rows);
    forall c | c in RowCurrencies(rows)
      ensures c in EntryCurrencies(entries)
    {
      var i :| 0 <= i < |rows| && rows[i].currency.id == c;
      assert entries[i] in entries;
    }
    forall c | c in EntryCurrencies(entries)
      ensures c in RowCurrencies(rows)
    {
      var i :| 0 <= i < |entries| && entries[i].currencyId == c;
      assert rows[i] in rows;
    }
  }

  /** processBudget caches exactly the currencies of the entries it returns, on either path. */
  lemma BudgetCurrencyIdsAreEntries(svc: Services, budget: Budget, start: Moment, end: Moment)
    requires ServicesValid(svc)
    ensures BudgetCurrencyIds(svc, budget, start, end) == EntryCurrencies(BudgetEntries(svc, budget, start, end))
  {
    var limits := svc.limitsIn(budget, start, end);
    var rows := BudgetRows(svc, budget, start, end);
    ReshapeAllCurrencies(budget.name, rows);
    if |limits| == 0 {
      ExpenseRowsCurrencies(svc, budget.id, svc.expensesIn(start, end, budget), start, end);
    } else {
      LimitsCurrencyIdsAreRows(svc, budget, limits);
    }
  }

  /**
   dashboard caches exactly the currencies of the entries it returns: no currency is looked up
   that no entry carries, and every entry's currency is looked up.
   */
  lemma {:induction false} DashboardCurrencyIdsAreEntries(svc: Services, budgets: seq<Budget>, start: Moment, end: Moment)
    requires ServicesValid(svc)
    ensures DashboardCurrencyIds(svc, budgets, start, end) == EntryCurrencies(DashboardEntries(svc, budgets, start, end))
  {
    if budgets != [] {
      var prefix, last := budgets[..|budgets| - 1], budgets[|budgets| - 1];
      DashboardCurrencyIdsAreEntries(svc, prefix, start, end);
      BudgetCurrencyIdsAreEntries(svc, last, start, end);
      EntryCurrenciesAppend(DashboardEntries(svc, prefix, start, end), EntriesOfBudget(svc, start, end)(last));
    }
  }
}
