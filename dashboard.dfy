/**
 * The dashboard page `src/pages/index.tsx`: its own copies of the totals,
 * the two expense breakdowns and the budget ranking, the budget map it
 * builds from the stored budgets, and the progress-bar classification of a
 * budget entry.
 *
 * The copies follow `src/lib/finance.ts` except for the category key,
 * which is the stored category as it is (`r.category ?? "Other"`), neither
 * trimmed nor defaulted when blank.
 */
module Dashboard {
  import opened Wrappers
  import opened Text
  import opened JsNumber
  import opened Finance

  /** The `totals` memo: the same sums as `computeTotals`. */
  method DashboardTotals(rows: seq<TxRow>) returns (t: Totals)
    ensures t == TotalsOf(rows)
    ensures t.balance == t.income - t.expense
  {
    var income, expense := 0.0, 0.0;
    for i := 0 to |rows|
      invariant income == Sum(rows[..i], IncomePart)
      invariant expense == Sum(rows[..i], ExpensePart)
    {
      assert rows[..i + 1][..i] == rows[..i];
      var r := rows[i];
      var amt := Coerce(r.amount);
      if !amt.Finite? {
        continue;
      }
      if r.kind == "INCOME" {
        income := income + amt.value;
      } else {
        expense := expense + amt.value;
      }
    }
    assert rows[..|rows|] == rows;
    t := Totals(income, expense, income - expense);
  }

  /** The dashboard's category key: `r.category ?? "Other"`. */
  function RawCategoryOf(r: TxRow): (k: string)
    ensures r.category.Some? ==> k == r.category.value
    ensures r.category.None? ==> k == "Other"
  {
    r.category.GetOr("Other")
  }

  /** The `expenseByCategory` memo. */
  method ExpenseByCategory(rows: seq<TxRow>) returns (m: map<string, real>)
    ensures m == GroupBy(rows, RawCategoryOf)
  {
    m := map[];
    for i := 0 to |rows|
      invariant m == GroupBy(rows[..i], RawCategoryOf)
    {
      assert rows[..i + 1][..i] == rows[..i];
      var r := rows[i];
      var amt := Coerce(r.amount);
      if !amt.Finite? {
        continue;
      }
      if r.kind != "EXPENSE" {
        continue;
      }
      var cat := r.category.GetOr("Other");
      m := m[cat := (if cat in m then m[cat] else 0.0) + amt.value];
    }
    assert rows[..|rows|] == rows;
  }

  /** The `expenseByDay` memo: the same map as `groupExpensesByDay`. */
  method ExpenseByDay(rows: seq<TxRow>) returns (m: map<string, real>)
    ensures m == GroupBy(rows, DayOf)
  {
    m := map[];
    for i := 0 to |rows|
      invariant m == GroupBy(rows[..i], DayOf)
    {
      assert rows[..i + 1][..i] == rows[..i];
      var r := rows[i];
      var amt := Coerce(r.amount);
      if !amt.Finite? {
        continue;
      }
      if r.kind != "EXPENSE" {
        continue;
      }
      var day := r.date;
      m := m[day := (if day in m then m[day] else 0.0) + amt.value];
    }
    assert rows[..|rows|] == rows;
  }

  /** Two keys that agree on every counted row give the same breakdown. */
  lemma {:induction false} GroupBySameKeys(rows: seq<TxRow>, k1: TxRow -> string, k2: TxRow -> string)
    requires forall i :: 0 <= i < |rows| && Grouped(rows[i]) ==> k1(rows[i]) == k2(rows[i])
    ensures GroupBy(rows, k1) == GroupBy(rows, k2)
  {
    if rows != [] {
      var n := |rows| - 1;
      assert forall i :: 0 <= i < n ==> rows[..n][i] == rows[i];
      GroupBySameKeys(rows[..n], k1, k2);
    }
  }

  /** A category stored as clean text, or not at all. */
  predicate CleanCategory(r: TxRow) {
    r.category.None? || (r.category.value != "" && IsTrimmed(r.category.value))
  }

  /**
   * When every counted row has a clean category, the dashboard breakdown
   * is the one of `groupExpensesByCategory`.
   */
  lemma CategoryBreakdownsAgree(rows: seq<TxRow>)
    requires forall i :: 0 <= i < |rows| && Grouped(rows[i]) ==> CleanCategory(rows[i])
    ensures GroupBy(rows, RawCategoryOf) == GroupBy(rows, CategoryOf)
  {
    forall i | 0 <= i < |rows| && Grouped(rows[i]) ensures RawCategoryOf(rows[i]) == CategoryOf(rows[i]) {
      if rows[i].category.Some? {
        TrimOfTrimmed(rows[i].category.value);
      }
    }
    GroupBySameKeys(rows, RawCategoryOf, CategoryOf);
  }

  /**
   * The two copies part ways on a blank category: the dashboard files the
   * expense under "", `groupExpensesByCategory` under "Other".
   */
  lemma BlankCategoryDiverges(r: TxRow)
    requires r == TxRow("EXPENSE", Num(Finite(5.0)), "2026-01-05", Some(""))
    ensures GroupBy([r], RawCategoryOf) == map["" := 5.0]
    ensures GroupBy([r], CategoryOf) == map["Other" := 5.0]
  {
    assert [r][..0] == [];
    assert CategoryOf(r) == "Other" by {
      assert IsBlank("");
    }
  }

  /** The breakdowns of the dashboard add up to its expense total. */
  lemma DashboardBreakdownsSumToExpense(rows: seq<TxRow>)
    requires forall i :: 0 <= i < |rows| ==> rows[i].kind == "INCOME" || rows[i].kind == "EXPENSE"
    ensures MapSum(GroupBy(rows, RawCategoryOf)) == TotalsOf(rows).expense
  {
    GroupByTotal(rows, RawCategoryOf);
    GroupedIsExpense(rows);
  }

  /** A stored budget: its category and its amount, either of which may be null. */
  datatype BudgetRow = BudgetRow(category: Option<string>, amount: Option<AmountInput>)

  /** `Number(b.amount)`: null reads as 0. */
  function BudgetAmount(b: BudgetRow): (n: Number)
    ensures b.amount.None? ==> n == Finite(0.0)
  {
    if b.amount.None? then Finite(0.0) else Coerce(b.amount.value)
  }

  /** `cat && Number.isFinite(amt)`: a non-empty category and a finite amount. */
  predicate Kept(b: BudgetRow) {
    b.category.Some? && b.category.value != "" && BudgetAmount(b).Finite?
  }

  /** The budget map after the rows, each kept row overwriting its category. */
  function BudgetMapOf(rows: seq<BudgetRow>): map<string, real> {
    if rows == [] then map[]
    else
      var m := BudgetMapOf(rows[..|rows| - 1]);
      var b := rows[|rows| - 1];
      if Kept(b) then m[b.category.value := BudgetAmount(b).value] else m
  }

  /** The `budgetMap` loop. */
  method BuildBudgetMap(rows: seq<BudgetRow>) returns (m: map<string, real>)
    ensures m == BudgetMapOf(rows)
  {
    m := map[];
    for i := 0 to |rows|
      invariant m == BudgetMapOf(rows[..i])
    {
      assert rows[..i + 1][..i] == rows[..i];
      var b := rows[i];
      var amt := BudgetAmount(b);
      if b.category.Some? && b.category.value != "" && amt.Finite? {
        m := m[b.category.value := amt.value];
      }
    }
    assert rows[..|rows|] == rows;
  }

  /** A category has a budget exactly when some kept row names it. */
  lemma {:induction false} BudgetMapKeys(rows: seq<BudgetRow>, k: string)
    ensures k in BudgetMapOf(rows) <==> exists i :: 0 <= i < |rows| && Kept(rows[i]) && rows[i].category.value == k
  {
    if rows != [] {
      var n := |rows| - 1;
      BudgetMapKeys(rows[..n], k);
      if exists i :: 0 <= i < n && Kept(rows[..n][i]) && rows[..n][i].category.value == k {
        var i :| 0 <= i < n && Kept(rows[..n][i]) && rows[..n][i].category.value == k;
        assert rows[i] == rows[..n][i];
      }
      if exists i :: 0 <= i < |rows| && Kept(rows[i]) && rows[i].category.value == k {
        var i :| 0 <= i < |rows| && Kept(rows[i]) && rows[i].category.value == k;
        if i < n {
          assert rows[..n][i] == rows[i];
        }
      }
    }
  }

  /** The budget of a category is the amount of the last kept row that names it. */
  lemma {:induction false} BudgetMapLastWins(rows: seq<BudgetRow>, i: nat)
    requires i < |rows| && Kept(rows[i])
    requires forall j :: i < j < |rows| && Kept(rows[j]) ==> rows[j].category != rows[i].category
    ensures rows[i].category.value in BudgetMapOf(rows)
    ensures BudgetMapOf(rows)[rows[i].category.value] == BudgetAmount(rows[i]).value
  {
    var n := |rows| - 1;
    if i < n {
      assert forall j :: i < j < n ==> rows[..n][j] == rows[j];
      BudgetMapLastWins(rows[..n], i);
    }
  }

  /**
   * The `budgetUsage` memo: the ranking of `computeBudgetUsage`, over the
   * dashboard's own category breakdown.
   */
  method BudgetUsage(budgets: map<string, real>, rows: seq<TxRow>) returns (list: seq<Usage>)
    ensures IsBudgetUsage(budgets, GroupBy(rows, RawCategoryOf), list)
  {
    var byCategory := ExpenseByCategory(rows);
    list := ComputeBudgetUsage(budgets, byCategory);
  }

  /** The width of a progress bar: 0 without a percentage, else the percentage clamped to [0, 100]. */
  function PctClamped(pct: Option<real>): (c: real)
    ensures 0.0 <= c <= 100.0
    ensures pct.None? ==> c == 0.0
    ensures pct.Some? && 0.0 <= pct.value <= 100.0 ==> c == pct.value
    ensures pct.Some? && pct.value < 0.0 ==> c == 0.0
    ensures pct.Some? && pct.value > 100.0 ==> c == 100.0
  {
    if pct.None? then 0.0
    else
      var lower := if pct.value > 0.0 then pct.value else 0.0;
      if lower < 100.0 then lower else 100.0
  }

  /** `pct !== null && pct >= 80 && pct < 100`. */
  predicate IsWarn(pct: Option<real>) {
    pct.Some? && pct.value >= 80.0 && pct.value < 100.0
  }

  /** `pct !== null && pct >= 100`. */
  predicate IsOver(pct: Option<real>) {
    pct.Some? && pct.value >= 100.0
  }

  /**
   * A bar is at most one of warning and over; without a percentage it is
   * neither; an over bar is full, a warning bar is at least 80 wide and not
   * full, and any other bar is under 80 wide.
   */
  lemma BarStates(pct: Option<real>)
    ensures !(IsWarn(pct) && IsOver(pct))
    ensures pct.None? ==> !IsWarn(pct) && !IsOver(pct)
    ensures IsOver(pct) <==> pct.Some? && PctClamped(pct) == 100.0
    ensures IsWarn(pct) <==> pct.Some? && 80.0 <= PctClamped(pct) < 100.0
    ensures !IsWarn(pct) && !IsOver(pct) ==> PctClamped(pct) < 80.0
  {
  }

  /**
   * With no negative spending the bar of a budget with a positive limit is
   * as wide as its percentage, up to full.
   */
  lemma BarOfUsage(budgets: map<string, real>, spent: map<string, real>, c: string)
    requires forall k | k in spent :: spent[k] >= 0.0
    ensures var u := UsageFor(budgets, spent, c);
            u.pct.Some? ==> u.pct.value >= 0.0 && PctClamped(u.pct) == (if u.pct.value < 100.0 then u.pct.value else 100.0)
  {
    NonNegativeKey(budgets, spent, c);
  }
}
