/**
 * The aggregation engine of `src/lib/finance.ts`: amount coercion, income
 * and expense totals, expense breakdowns by category and by day, and the
 * budget-usage ranking.
 *
 * Records keyed by category or day are `map<string, real>`; a row's type is
 * kept as the text the database hands back, so rows whose type is neither
 * INCOME nor EXPENSE are representable (the TypeScript type rules them out).
 */
module Finance {
  import opened Wrappers
  import opened Text
  import opened JsNumber

  /** `amount: number | string`. */
  datatype AmountInput = Num(n: Number) | Str(s: string)

  /** `TxRow`: a transaction as loaded from storage. */
  datatype TxRow = TxRow(kind: string, amount: AmountInput, date: string, category: Option<string>)

  datatype Totals = Totals(income: real, expense: real, balance: real)

  /** `typeof x === "string" ? Number(x) : x`. */
  function Coerce(x: AmountInput): Number {
    match x
    case Num(n) => n
    case Str(s) => StringToNumber(s)
  }

  /**
   * `toAmount(x)`: the number when it is finite, absent for NaN and the two
   * infinities (unparsable text included).  It is total: there is no
   * failure other than the absent value.
   */
  function ToAmount(x: AmountInput): (r: Option<real>)
    ensures r.Some? <==> Coerce(x).Finite?
    ensures r.Some? ==> Coerce(x) == Finite(r.value)
  {
    var n := Coerce(x);
    if n.Finite? then Some(n.value) else None
  }

  /** What a row adds to the income total. */
  function IncomePart(r: TxRow): real {
    match ToAmount(r.amount)
    case Some(a) => if r.kind == "INCOME" then a else 0.0
    case None => 0.0
  }

  /** What a row adds to the expense total: every row that is not INCOME. */
  function ExpensePart(r: TxRow): real {
    match ToAmount(r.amount)
    case Some(a) => if r.kind == "INCOME" then 0.0 else a
    case None => 0.0
  }

  /** The rows the breakdowns count: EXPENSE rows with a usable amount. */
  predicate Grouped(r: TxRow) {
    ToAmount(r.amount).Some? && r.kind == "EXPENSE"
  }

  function GroupedPart(r: TxRow): real {
    if Grouped(r) then ToAmount(r.amount).value else 0.0
  }

  /** The sum of `part` over the rows. */
  function Sum(rows: seq<TxRow>, part: TxRow -> real): real {
    if rows == [] then 0.0 else Sum(rows[..|rows| - 1], part) + part(rows[|rows| - 1])
  }

  /** The totals `computeTotals` promises, stated over the whole row list. */
  function TotalsOf(rows: seq<TxRow>): Totals {
    var income := Sum(rows, IncomePart);
    var expense := Sum(rows, ExpensePart);
    Totals(income, expense, income - expense)
  }

  method ComputeTotals(rows: seq<TxRow>) returns (t: Totals)
    ensures t == TotalsOf(rows)
    ensures t.balance == t.income - t.expense
  {
    var income, expense := 0.0, 0.0;
    for i := 0 to |rows|
      invariant income == Sum(rows[..i], IncomePart)
      invariant expense == Sum(rows[..i], ExpensePart)
    {
      assert rows[..i + 1][..i] == rows[..i];
      var r := rows[i];
      var amt := ToAmount(r.amount);
      if amt.Some? {
        if r.kind == "INCOME" {
          income := income + amt.value;
        } else {
          expense := expense + amt.value;
        }
      }
    }
    assert rows[..|rows|] == rows;
    t := Totals(income, expense, income - expense);
  }

  lemma {:induction false} SumAppend(a: seq<TxRow>, b: seq<TxRow>, part: TxRow -> real)
    ensures Sum(a + b, part) == Sum(a, part) + Sum(b, part)
    decreases |b|
  {
    if b == [] {
      assert a + b == a;
    } else {
      var n := |b| - 1;
      assert (a + b)[..|a + b| - 1] == a + b[..n];
      SumAppend(a, b[..n], part);
    }
  }

  /** A sum over rows does not depend on their order. */
  lemma {:induction false} SumPermutation(a: seq<TxRow>, b: seq<TxRow>, part: TxRow -> real)
    requires multiset(a) == multiset(b)
    ensures Sum(a, part) == Sum(b, part)
    decreases |a|
  {
    if a != [] {
      var n := |a| - 1;
      assert a[n] in multiset(b) by {
        assert a[n] in multiset(a);
      }
      var j :| 0 <= j < |b| && b[j] == a[n];
      var rest := b[..j] + b[j + 1..];
      MultisetRemoveAt(a, b, j);
      SumPermutation(a[..n], rest, part);
      SumRemoveAt(b, j, part);
    }
  }

  /** Taking the same element off both sides keeps two sequences permutations. */
  lemma MultisetRemoveAt<T>(a: seq<T>, b: seq<T>, j: nat)
    requires multiset(a) == multiset(b) && a != [] && j < |b| && b[j] == a[|a| - 1]
    ensures multiset(a[..|a| - 1]) == multiset(b[..j] + b[j + 1..])
  {
    var n := |a| - 1;
    var x := b[j];
    assert a == a[..n] + [x];
    assert b == b[..j] + [x] + b[j + 1..];
    var rest := b[..j] + b[j + 1..];
    assert multiset(b) == multiset(rest) + multiset{x};
    assert multiset(a) == multiset(a[..n]) + multiset{x};
    assert forall y :: multiset(a[..n])[y] == multiset(rest)[y] by {
      forall y ensures multiset(a[..n])[y] == multiset(rest)[y] {
        assert (multiset(a[..n]) + multiset{x})[y] == (multiset(rest) + multiset{x})[y];
      }
    }
  }

  /** Removing the row at `j` removes its part from the sum. */
  lemma {:induction false} SumRemoveAt(b: seq<TxRow>, j: nat, part: TxRow -> real)
    requires j < |b|
    ensures Sum(b, part) == Sum(b[..j] + b[j + 1..], part) + part(b[j])
  {
    var n := |b| - 1;
    var rest := b[..j] + b[j + 1..];
    if j == n {
      assert rest == b[..n];
    } else {
      var init := b[..n];
      SumRemoveAt(init, j, part);
      var shorter := init[..j] + init[j + 1..];
      assert init[..j] == b[..j];
      assert b[j + 1..] == init[j + 1..] + [b[n]];
      assert rest == shorter + [b[n]];
      assert rest[..|rest| - 1] == shorter;
      assert Sum(rest, part) == Sum(shorter, part) + part(b[n]);
      assert b[..n] == init;
    }
  }

  /** `computeTotals` is invariant under reordering the rows. */
  lemma TotalsOrderIndependent(a: seq<TxRow>, b: seq<TxRow>)
    requires multiset(a) == multiset(b)
    ensures TotalsOf(a) == TotalsOf(b)
  {
    SumPermutation(a, b, IncomePart);
    SumPermutation(a, b, ExpensePart);
  }

  /** `map[key] = (map[key] ?? 0) + amt`. */
  function Bump(m: map<string, real>, key: string, amt: real): (r: map<string, real>)
    ensures r.Keys == m.Keys + {key}
    ensures r[key] == (if key in m then m[key] else 0.0) + amt
    ensures forall k :: k in m && k != key ==> r[k] == m[k]
  {
    m[key := (if key in m then m[key] else 0.0) + amt]
  }

  /**
   * The category key of `groupExpensesByCategory`: the trimmed category,
   * or "Other" when it is missing or blank.
   */
  function CategoryKey(category: Option<string>): (k: string)
    ensures k != "" && IsTrimmed(k)
    ensures category.Some? && !IsBlank(category.value) ==> k == Trim(category.value)
    ensures category.None? || IsBlank(category.value) ==> k == "Other"
  {
    assert IsTrimmed("Other");
    TrimOfTrimmed("Other");
    var t := Trim(category.GetOr("Other"));
    if t == "" then "Other" else t
  }

  function CategoryOf(r: TxRow): string {
    CategoryKey(r.category)
  }

  /** The day key of `groupExpensesByDay`: the raw date text, unvalidated. */
  function DayOf(r: TxRow): string {
    r.date
  }

  /** One step of a breakdown loop: a counted row adds its amount under its key. */
  function GroupStep(m: map<string, real>, r: TxRow, key: TxRow -> string): map<string, real> {
    if Grouped(r) then Bump(m, key(r), ToAmount(r.amount).value) else m
  }

  /** An expense breakdown by `key`, built row by row as the loops do. */
  function GroupBy(rows: seq<TxRow>, key: TxRow -> string): map<string, real> {
    if rows == [] then map[]
    else GroupStep(GroupBy(rows[..|rows| - 1], key), rows[|rows| - 1], key)
  }

  method GroupExpensesByCategory(rows: seq<TxRow>) returns (m: map<string, real>)
    ensures m == GroupBy(rows, CategoryOf)
  {
    m := map[];
    for i := 0 to |rows|
      invariant m == GroupBy(rows[..i], CategoryOf)
    {
      assert rows[..i + 1][..i] == rows[..i];
      var r := rows[i];
      var amt := ToAmount(r.amount);
      if amt.Some? && r.kind == "EXPENSE" {
        var cat := CategoryKey(r.category);
        m := m[cat := (if cat in m then m[cat] else 0.0) + amt.value];
      }
    }
    assert rows[..|rows|] == rows;
  }

  method GroupExpensesByDay(rows: seq<TxRow>) returns (m: map<string, real>)
    ensures m == GroupBy(rows, DayOf)
  {
    m := map[];
    for i := 0 to |rows|
      invariant m == GroupBy(rows[..i], DayOf)
    {
      assert rows[..i + 1][..i] == rows[..i];
      var r := rows[i];
      var amt := ToAmount(r.amount);
      if amt.Some? && r.kind == "EXPENSE" {
        var day := r.date;
        m := m[day := (if day in m then m[day] else 0.0) + amt.value];
      }
    }
    assert rows[..|rows|] == rows;
  }

  /** A key is present exactly when some counted row carries it. */
  lemma {:induction false} GroupByKeys(rows: seq<TxRow>, key: TxRow -> string, k: string)
    ensures k in GroupBy(rows, key) <==> exists i :: 0 <= i < |rows| && Grouped(rows[i]) && key(rows[i]) == k
  {
    if rows != [] {
      var n := |rows| - 1;
      GroupByKeys(rows[..n], key, k);
      if exists i :: 0 <= i < n && Grouped(rows[..n][i]) && key(rows[..n][i]) == k {
        var i :| 0 <= i < n && Grouped(rows[..n][i]) && key(rows[..n][i]) == k;
        assert rows[i] == rows[..n][i];
      }
      if exists i :: 0 <= i < |rows| && Grouped(rows[i]) && key(rows[i]) == k {
        var i :| 0 <= i < |rows| && Grouped(rows[i]) && key(rows[i]) == k;
        if i < n {
          assert rows[..n][i] == rows[i];
        }
      }
    }
  }

  /** What a row adds under the key `k`: its amount when it is counted and carries `k`. */
  function KeyPart(key: TxRow -> string, k: string): TxRow -> real {
    r => if Grouped(r) && key(r) == k then ToAmount(r.amount).value else 0.0
  }

  /**
   * The value under a key is the sum of the amounts of the counted rows
   * that carry it; a key no counted row carries is absent, read as 0.
   */
  lemma {:induction false} GroupByValue(rows: seq<TxRow>, key: TxRow -> string, k: string)
    ensures (if k in GroupBy(rows, key) then GroupBy(rows, key)[k] else 0.0) == Sum(rows, KeyPart(key, k))
  {
    if rows != [] {
      GroupByValue(rows[..|rows| - 1], key, k);
    }
  }

  /** Some key of a non-empty map. */
  ghost function Pick(m: map<string, real>): (k: string)
    requires |m| > 0
    ensures k in m
  {
    var k :| k in m; k
  }

  /** The sum of a map's values. */
  ghost function MapSum(m: map<string, real>): real
    decreases |m|
  {
    if |m| == 0 then 0.0
    else
      var k := Pick(m);
      assert (m - {k}).Keys == m.Keys - {k};
      m[k] + MapSum(m - {k})
  }

  /** The sum does not depend on which key is taken out first. */
  lemma {:induction false} MapSumRemove(m: map<string, real>, k: string)
    requires k in m
    ensures MapSum(m) == m[k] + MapSum(m - {k})
    decreases |m|
  {
    var j := Pick(m);
    if j != k {
      var mj := m - {j};
      var mk := m - {k};
      assert mj.Keys == m.Keys - {j};
      assert mk.Keys == m.Keys - {k};
      MapSumRemove(mj, k);
      MapSumRemove(mk, j);
      assert mj - {k} == mk - {j};
    }
  }

  /** Adding `amt` under one key adds `amt` to the sum of the values. */
  lemma MapSumBump(m: map<string, real>, key: string, amt: real)
    ensures MapSum(Bump(m, key, amt)) == MapSum(m) + amt
  {
    var b := Bump(m, key, amt);
    MapSumRemove(b, key);
    BumpElsewhere(m, key, amt);
    if key in m {
      MapSumRemove(m, key);
    } else {
      assert m - {key} == m;
    }
  }

  /** Bumping one key leaves the rest of the map as it was. */
  lemma BumpElsewhere(m: map<string, real>, key: string, amt: real)
    ensures Bump(m, key, amt) - {key} == m - {key}
  {
    var b := Bump(m, key, amt);
    assert (b - {key}).Keys == (m - {key}).Keys;
  }

  /** The values of a breakdown add up to the amounts of the counted rows. */
  lemma {:induction false} GroupByTotal(rows: seq<TxRow>, key: TxRow -> string)
    ensures MapSum(GroupBy(rows, key)) == Sum(rows, GroupedPart)
  {
    if rows != [] {
      var n := |rows| - 1;
      GroupByTotal(rows[..n], key);
      var r := rows[n];
      if Grouped(r) {
        MapSumBump(GroupBy(rows[..n], key), key(r), ToAmount(r.amount).value);
      }
    }
  }

  /** When every row is INCOME or EXPENSE, the counted rows are exactly the expense rows. */
  lemma {:induction false} GroupedIsExpense(rows: seq<TxRow>)
    requires forall i :: 0 <= i < |rows| ==> rows[i].kind == "INCOME" || rows[i].kind == "EXPENSE"
    ensures Sum(rows, GroupedPart) == Sum(rows, ExpensePart)
  {
    if rows != [] {
      GroupedIsExpense(rows[..|rows| - 1]);
    }
  }

  /**
   * The category breakdown and the day breakdown each add up to the expense
   * total of `computeTotals`, for rows typed INCOME or EXPENSE.
   */
  lemma BreakdownsSumToExpense(rows: seq<TxRow>)
    requires forall i :: 0 <= i < |rows| ==> rows[i].kind == "INCOME" || rows[i].kind == "EXPENSE"
    ensures MapSum(GroupBy(rows, CategoryOf)) == TotalsOf(rows).expense
    ensures MapSum(GroupBy(rows, DayOf)) == TotalsOf(rows).expense
  {
    GroupByTotal(rows, CategoryOf);
    GroupByTotal(rows, DayOf);
    GroupedIsExpense(rows);
  }

  /** One entry of the budget-usage list. */
  datatype Usage = Usage(category: string, spent: real, limit: real, pct: Option<real>)

  /**
   * The entry for category `c`: spent and limit default to 0, and the
   * percentage is absent exactly when the limit is not positive.
   */
  function UsageFor(budgets: map<string, real>, spent: map<string, real>, c: string): (u: Usage)
    ensures u.category == c
    ensures u.spent == (if c in spent then spent[c] else 0.0)
    ensures u.limit == (if c in budgets then budgets[c] else 0.0)
    ensures u.pct.None? <==> u.limit <= 0.0
    ensures u.pct.Some? ==> u.pct.value * u.limit == u.spent * 100.0
  {
    var s := if c in spent then spent[c] else 0.0;
    var l := if c in budgets then budgets[c] else 0.0;
    Usage(c, s, l, if l > 0.0 then Some(s / l * 100.0) else None)
  }

  /** `b.pct ?? -1`, the sort key. */
  function SortKey(u: Usage): real {
    if u.pct.Some? then u.pct.value else -1.0
  }

  predicate SortedByPct(list: seq<Usage>) {
    forall i, j :: 0 <= i < j < |list| ==> SortKey(list[i]) >= SortKey(list[j])
  }

  function Categories(list: seq<Usage>): set<string> {
    set u | u in list :: u.category
  }

  /**
   * What `computeBudgetUsage` returns: one correct entry per category of
   * either map, with no repeats, sorted by non-increasing percentage with
   * an absent percentage counted as -1.  The order of equal keys is left
   * open.
   */
  ghost predicate IsBudgetUsage(budgets: map<string, real>, spent: map<string, real>, list: seq<Usage>) {
    && SortedByPct(list)
    && (forall u | u in list :: u == UsageFor(budgets, spent, u.category))
    && (forall u :: multiset(list)[u] <= 1)
    && Categories(list) == budgets.Keys + spent.Keys
  }

  /** Inserting into a sorted list keeps it sorted and adds the entry. */
  function InsertByPct(u: Usage, sorted: seq<Usage>): (r: seq<Usage>)
    requires SortedByPct(sorted)
    ensures SortedByPct(r)
    ensures multiset(r) == multiset(sorted) + multiset{u}
  {
    if sorted == [] then [u]
    else if SortKey(u) >= SortKey(sorted[0]) then
      ConsSorted(u, sorted);
      [u] + sorted
    else
      var rest := InsertByPct(u, sorted[1..]);
      HeadBoundsInsert(u, sorted, rest);
      ConsSorted(sorted[0], rest);
      assert sorted == [sorted[0]] + sorted[1..];
      [sorted[0]] + rest
  }

  /** An entry whose key bounds a sorted list may go in front of it. */
  lemma ConsSorted(h: Usage, list: seq<Usage>)
    requires SortedByPct(list)
    requires list == [] || SortKey(h) >= SortKey(list[0])
    ensures SortedByPct([h] + list)
  {
  }

  /** The head of a sorted list bounds its tail with a smaller entry inserted. */
  lemma HeadBoundsInsert(u: Usage, sorted: seq<Usage>, rest: seq<Usage>)
    requires sorted != [] && SortedByPct(sorted) && SortKey(u) < SortKey(sorted[0])
    requires multiset(rest) == multiset(sorted[1..]) + multiset{u}
    ensures rest == [] || SortKey(sorted[0]) >= SortKey(rest[0])
  {
    if rest != [] {
      assert rest[0] in multiset(rest);
      assert rest[0] == u || rest[0] in multiset(sorted[1..]);
      if rest[0] != u {
        assert rest[0] in sorted[1..];
      }
    }
  }

  /** `list.sort((a, b) => (b.pct ?? -1) - (a.pct ?? -1))`, as an insertion sort. */
  function SortByPct(list: seq<Usage>): (r: seq<Usage>)
    ensures SortedByPct(r)
    ensures multiset(r) == multiset(list)
  {
    if list == [] then []
    else
      assert list == [list[0]] + list[1..];
      InsertByPct(list[0], SortByPct(list[1..]))
  }

  method ComputeBudgetUsage(budgets: map<string, real>, spent: map<string, real>) returns (list: seq<Usage>)
    ensures IsBudgetUsage(budgets, spent, list)
  {
    var categories := budgets.Keys + spent.Keys;
    var pending := categories;
    var entries: seq<Usage> := [];
    while pending != {}
      invariant pending <= categories
      invariant PartialUsage(budgets, spent, entries, categories - pending)
      decreases |pending|
    {
      var c :| c in pending;
      PartialUsageStep(budgets, spent, entries, categories - pending, c);
      TakeOne(categories, pending, c);
      entries := entries + [UsageFor(budgets, spent, c)];
      pending := pending - {c};
    }
    list := SortByPct(entries);
    SortedPartialUsage(budgets, spent, entries, list);
  }

  /** The entries built so far: correct, each listed once, covering exactly `done`. */
  ghost predicate PartialUsage(budgets: map<string, real>, spent: map<string, real>, entries: seq<Usage>, done: set<string>) {
    && (forall u | u in entries :: u == UsageFor(budgets, spent, u.category))
    && (forall u :: multiset(entries)[u] <= 1)
    && Categories(entries) == done
  }

  /** Appending the entry of a category not yet done extends the partial list. */
  lemma PartialUsageStep(budgets: map<string, real>, spent: map<string, real>,
                         entries: seq<Usage>, done: set<string>, c: string)
    requires PartialUsage(budgets, spent, entries, done) && c !in done
    ensures PartialUsage(budgets, spent, entries + [UsageFor(budgets, spent, c)], done + {c})
  {
    AppendFresh(entries, UsageFor(budgets, spent, c));
  }

  /** Moving one category from pending to done. */
  lemma TakeOne(all: set<string>, pending: set<string>, c: string)
    requires c in pending && pending <= all
    ensures all - pending + {c} == all - (pending - {c})
  {
  }

  /** Sorting a complete partial list gives the budget usage. */
  lemma SortedPartialUsage(budgets: map<string, real>, spent: map<string, real>,
                           entries: seq<Usage>, list: seq<Usage>)
    requires PartialUsage(budgets, spent, entries, budgets.Keys + spent.Keys)
    requires SortedByPct(list) && multiset(list) == multiset(entries)
    ensures IsBudgetUsage(budgets, spent, list)
  {
    SameEntries(entries, list);
  }

  /** Appending an entry for a category not yet listed keeps every entry unique. */
  lemma AppendFresh(entries: seq<Usage>, u: Usage)
    requires u.category !in Categories(entries)
    requires forall v :: multiset(entries)[v] <= 1
    ensures forall v :: multiset(entries + [u])[v] <= 1
    ensures Categories(entries + [u]) == Categories(entries) + {u.category}
    ensures forall v :: v in entries + [u] <==> v in entries || v == u
  {
    assert u !in entries;
    assert multiset(entries + [u]) == multiset(entries) + multiset{u};
  }

  /** A reordering has the same entries and categories. */
  lemma SameEntries(a: seq<Usage>, b: seq<Usage>)
    requires multiset(a) == multiset(b)
    ensures forall u :: u in a <==> u in b
    ensures Categories(a) == Categories(b)
  {
    assert forall u :: u in a <==> u in multiset(a);
    assert forall u :: u in b <==> u in multiset(b);
  }

  /** An entry is in the list exactly when it is the entry of a category of either map. */
  lemma BudgetUsageMembers(budgets: map<string, real>, spent: map<string, real>, list: seq<Usage>)
    requires IsBudgetUsage(budgets, spent, list)
    ensures forall u: Usage :: u in list <==> u.category in budgets.Keys + spent.Keys && u == UsageFor(budgets, spent, u.category)
  {
    forall u: Usage | u.category in budgets.Keys + spent.Keys && u == UsageFor(budgets, spent, u.category)
      ensures u in list
    {
      assert u.category in Categories(list);
    }
  }

  /** Two positions holding the same entry count it twice. */
  lemma RepeatCounts(list: seq<Usage>, i: nat, j: nat)
    requires i < j < |list| && list[i] == list[j]
    ensures multiset(list)[list[i]] >= 2
  {
    assert list == list[..j] + [list[j]] + list[j + 1..];
    assert list[i] in multiset(list[..j]);
  }

  /** The list has exactly one entry per category of either map. */
  lemma BudgetUsageOnePerCategory(budgets: map<string, real>, spent: map<string, real>, list: seq<Usage>)
    requires IsBudgetUsage(budgets, spent, list)
    ensures forall i, j :: 0 <= i < j < |list| ==> list[i].category != list[j].category
    ensures |list| == |budgets.Keys + spent.Keys|
  {
    forall i, j | 0 <= i < j < |list| ensures list[i].category != list[j].category {
      if list[i].category == list[j].category {
        assert list[i] in list && list[j] in list;
        RepeatCounts(list, i, j);
      }
    }
    DistinctCategoriesCount(list);
  }

  lemma {:induction false} DistinctCategoriesCount(list: seq<Usage>)
    requires forall i, j :: 0 <= i < j < |list| ==> list[i].category != list[j].category
    ensures |Categories(list)| == |list|
  {
    if list != [] {
      var n := |list| - 1;
      DistinctCategoriesCount(list[..n]);
      assert Categories(list) == Categories(list[..n]) + {list[n].category} by {
        assert list == list[..n] + [list[n]];
      }
      assert list[n].category !in Categories(list[..n]);
    }
  }

  /**
   * With no negative spending, every category without a budget comes after
   * every category with one.
   */
  lemma NoBudgetSinks(budgets: map<string, real>, spent: map<string, real>, list: seq<Usage>)
    requires IsBudgetUsage(budgets, spent, list)
    requires forall c | c in spent :: spent[c] >= 0.0
    ensures forall i, j :: 0 <= i < j < |list| && list[i].pct.None? ==> list[j].pct.None?
  {
    forall i, j | 0 <= i < j < |list| && list[i].pct.None? ensures list[j].pct.None? {
      assert list[j] in list;
      NonNegativeKey(budgets, spent, list[j].category);
    }
  }

  /** With no negative spending, a present percentage is never negative. */
  lemma NonNegativeKey(budgets: map<string, real>, spent: map<string, real>, c: string)
    requires forall c | c in spent :: spent[c] >= 0.0
    ensures UsageFor(budgets, spent, c).pct.Some? ==> SortKey(UsageFor(budgets, spent, c)) >= 0.0
  {
  }

  /** The rows of the unit-test fixture. */
  function FixtureRows(): seq<TxRow> {
    [ TxRow("INCOME", Num(Finite(3000.0)), "2026-01-01", Some("Salary")),
      TxRow("EXPENSE", Num(Finite(25.5)), "2026-01-05", Some("Food")),
      TxRow("EXPENSE", Str("10"), "2026-01-05", Some("Food")),
      TxRow("EXPENSE", Num(Finite(50.0)), "2026-01-06", Some("Transport")),
      TxRow("EXPENSE", Str("not-a-number"), "2026-01-06", Some("Food")) ]
  }

  /** How the fixture's text amounts coerce: "10" is 10 and "not-a-number" is dropped. */
  lemma FixtureAmounts()
    ensures ToAmount(Str("10")) == Some(10.0)
    ensures ToAmount(Str("not-a-number")) == None
  {
    assert NatToString(10) == "10";
    NatRoundTrip(10);
    NotANumberIsNaN();
  }

  lemma SumOfFive(a: TxRow, b: TxRow, c: TxRow, d: TxRow, e: TxRow, part: TxRow -> real)
    ensures Sum([a, b, c, d, e], part) == part(a) + part(b) + part(c) + part(d) + part(e)
  {
    assert [a, b, c, d, e][..4] == [a, b, c, d];
    assert [a, b, c, d][..3] == [a, b, c];
    assert [a, b, c][..2] == [a, b];
    assert [a, b][..1] == [a];
    assert [a][..0] == [];
    assert Sum([a], part) == part(a);
    assert Sum([a, b], part) == part(a) + part(b);
    assert Sum([a, b, c], part) == part(a) + part(b) + part(c);
    assert Sum([a, b, c, d], part) == part(a) + part(b) + part(c) + part(d);
  }

  lemma GroupByOfFive(a: TxRow, b: TxRow, c: TxRow, d: TxRow, e: TxRow, key: TxRow -> string)
    ensures GroupBy([a, b, c, d, e], key)
         == GroupStep(GroupStep(GroupStep(GroupStep(GroupStep(map[], a, key), b, key), c, key), d, key), e, key)
  {
    assert [a, b, c, d, e][..4] == [a, b, c, d];
    assert [a, b, c, d][..3] == [a, b, c];
    assert [a, b, c][..2] == [a, b];
    assert [a, b][..1] == [a];
    assert [a][..0] == [];
    var m1 := GroupStep(map[], a, key);
    assert GroupBy([a], key) == m1;
    var m2 := GroupStep(m1, b, key);
    assert GroupBy([a, b], key) == m2;
    var m3 := GroupStep(m2, c, key);
    assert GroupBy([a, b, c], key) == m3;
    assert GroupBy([a, b, c, d], key) == GroupStep(m3, d, key);
  }

  /** What each fixture row adds to the income total. */
  lemma FixtureIncomeParts(a: TxRow, b: TxRow, c: TxRow, d: TxRow, e: TxRow)
    requires a == FixtureRows()[0] && b == FixtureRows()[1] && c == FixtureRows()[2]
    requires d == FixtureRows()[3] && e == FixtureRows()[4]
    ensures IncomePart(a) == 3000.0 && ExpensePart(a) == 0.0
    ensures IncomePart(b) == 0.0 && IncomePart(c) == 0.0
    ensures IncomePart(d) == 0.0 && IncomePart(e) == 0.0
  {
  }

  /** An EXPENSE row adds to the expense total what it adds to the breakdowns. */
  lemma ExpenseRowPart(r: TxRow)
    requires r.kind == "EXPENSE"
    ensures ExpensePart(r) == GroupedPart(r)
  {
  }

  /** Which fixture rows the breakdowns count, and with what amount. */
  lemma FixtureRowGrouped(a: TxRow, b: TxRow, c: TxRow, d: TxRow, e: TxRow)
    requires a == FixtureRows()[0] && b == FixtureRows()[1] && c == FixtureRows()[2]
    requires d == FixtureRows()[3] && e == FixtureRows()[4]
    ensures !Grouped(a) && !Grouped(e)
    ensures Grouped(b) && GroupedPart(b) == 25.5
    ensures Grouped(c) && GroupedPart(c) == 10.0
    ensures Grouped(d) && GroupedPart(d) == 50.0
  {
    FixtureAmounts();
  }

  /** Trimming leaves the fixture's category names alone. */
  lemma FixtureCategoryNames()
    ensures CategoryKey(Some("Food")) == "Food"
    ensures CategoryKey(Some("Transport")) == "Transport"
  {
    assert IsTrimmed("Food") && IsTrimmed("Transport");
    TrimOfTrimmed("Food");
    TrimOfTrimmed("Transport");
  }

  /** The unit test's expected totals: income 3000, expense 85.5, balance 2914.5. */
  lemma FixtureTotals()
    ensures TotalsOf(FixtureRows()) == Totals(3000.0, 85.5, 2914.5)
  {
    var rows := FixtureRows();
    FixtureIncomeParts(rows[0], rows[1], rows[2], rows[3], rows[4]);
    FixtureRowGrouped(rows[0], rows[1], rows[2], rows[3], rows[4]);
    ExpenseRowPart(rows[1]);
    ExpenseRowPart(rows[2]);
    ExpenseRowPart(rows[3]);
    ExpenseRowPart(rows[4]);
    SumOfFive(rows[0], rows[1], rows[2], rows[3], rows[4], IncomePart);
    SumOfFive(rows[0], rows[1], rows[2], rows[3], rows[4], ExpensePart);
  }

  /**
   * A breakdown of five rows shaped like the fixture: the first and last
   * are not counted, the second and third share a key, the fourth has
   * another.
   */
  lemma FixtureShapedBreakdown(a: TxRow, b: TxRow, c: TxRow, d: TxRow, e: TxRow,
                               key: TxRow -> string, k1: string, k2: string)
    requires !Grouped(a) && !Grouped(e) && k1 != k2
    requires Grouped(b) && GroupedPart(b) == 25.5 && key(b) == k1
    requires Grouped(c) && GroupedPart(c) == 10.0 && key(c) == k1
    requires Grouped(d) && GroupedPart(d) == 50.0 && key(d) == k2
    ensures GroupBy([a, b, c, d, e], key) == map[k1 := 35.5, k2 := 50.0]
  {
    GroupByOfFive(a, b, c, d, e, key);
    var m2 := GroupStep(GroupStep(map[], a, key), b, key);
    assert m2 == map[k1 := 25.5];
    var m3 := GroupStep(m2, c, key);
    assert m3 == map[k1 := 35.5];
  }

  /** The unit test's expected category breakdown: Food 35.5, Transport 50. */
  lemma FixtureByCategory()
    ensures GroupBy(FixtureRows(), CategoryOf) == map["Food" := 35.5, "Transport" := 50.0]
  {
    var rows := FixtureRows();
    FixtureRowGrouped(rows[0], rows[1], rows[2], rows[3], rows[4]);
    FixtureCategoryNames();
    FixtureShapedBreakdown(rows[0], rows[1], rows[2], rows[3], rows[4], CategoryOf, "Food", "Transport");
  }

  /** The unit test's expected day breakdown: 2026-01-05 35.5, 2026-01-06 50. */
  lemma FixtureByDay()
    ensures GroupBy(FixtureRows(), DayOf) == map["2026-01-05" := 35.5, "2026-01-06" := 50.0]
  {
    var rows := FixtureRows();
    FixtureRowGrouped(rows[0], rows[1], rows[2], rows[3], rows[4]);
    FixtureShapedBreakdown(rows[0], rows[1], rows[2], rows[3], rows[4], DayOf, "2026-01-05", "2026-01-06");
  }

  /** The budgets and the spending of the unit test for the ranking. */
  function FixtureBudgets(): map<string, real> {
    map["Food" := 100.0, "Transport" := 10.0]
  }

  function FixtureSpent(): map<string, real> {
    map["Food" := 80.0, "Transport" := 20.0, "Bills" := 0.0]
  }

  lemma FixtureUsages()
    ensures UsageFor(FixtureBudgets(), FixtureSpent(), "Transport") == Usage("Transport", 20.0, 10.0, Some(200.0))
    ensures UsageFor(FixtureBudgets(), FixtureSpent(), "Food") == Usage("Food", 80.0, 100.0, Some(80.0))
    ensures UsageFor(FixtureBudgets(), FixtureSpent(), "Bills") == Usage("Bills", 0.0, 0.0, None)
  {
  }

  /** A sorted list of three entries with strictly decreasing keys is in that order. */
  lemma SortedThree(list: seq<Usage>, x: Usage, y: Usage, z: Usage)
    requires |list| == 3 && SortedByPct(list)
    requires forall u | u in list :: u == x || u == y || u == z
    requires x in list && y in list && z in list
    requires SortKey(x) > SortKey(y) > SortKey(z)
    ensures list == [x, y, z]
  {
    assert list[0] == x by {
      var i :| 0 <= i < 3 && list[i] == x;
      assert list[0] in list;
    }
    assert list[2] == z by {
      var i :| 0 <= i < 3 && list[i] == z;
      assert list[2] in list;
    }
    assert list[1] == y by {
      var i :| 0 <= i < 3 && list[i] == y;
      assert list[1] in list;
    }
  }

  /**
   * A sorted list whose entries are `f` of their own category, over three
   * categories whose keys strictly decrease, holds them in that order.
   */
  lemma ThreeInOrder(list: seq<Usage>, f: string -> Usage, a: string, b: string, c: string)
    requires |list| == 3 && SortedByPct(list)
    requires forall u | u in list :: u == f(u.category)
    requires Categories(list) == {a, b, c}
    requires SortKey(f(a)) > SortKey(f(b)) > SortKey(f(c))
    ensures list == [f(a), f(b), f(c)]
  {
    forall u | u in list ensures u == f(a) || u == f(b) || u == f(c) {
      assert u.category in Categories(list);
    }
    assert a in Categories(list) && b in Categories(list) && c in Categories(list);
    SortedThree(list, f(a), f(b), f(c));
  }

  lemma ThreeElements(a: string, b: string, c: string)
    requires a != b && b != c && a != c
    ensures |{a, b, c}| == 3
  {
    assert {a, b, c} == {a, b} + {c};
  }

  /**
   * Three categories whose keys strictly decrease are listed in that order,
   * each once.
   */
  lemma ThreeCategoryUsage(budgets: map<string, real>, spent: map<string, real>, list: seq<Usage>,
                           a: string, b: string, c: string)
    requires IsBudgetUsage(budgets, spent, list)
    requires budgets.Keys + spent.Keys == {a, b, c} && a != b && b != c && a != c
    requires SortKey(UsageFor(budgets, spent, a)) > SortKey(UsageFor(budgets, spent, b)) > SortKey(UsageFor(budgets, spent, c))
    ensures list == [UsageFor(budgets, spent, a), UsageFor(budgets, spent, b), UsageFor(budgets, spent, c)]
  {
    BudgetUsageOnePerCategory(budgets, spent, list);
    ThreeElements(a, b, c);
    ThreeInOrder(list, k => UsageFor(budgets, spent, k), a, b, c);
  }

  /** The expectation of the unit test for the ranking: Transport, Food, Bills. */
  lemma FixtureBudgetUsage(list: seq<Usage>)
    requires IsBudgetUsage(FixtureBudgets(), FixtureSpent(), list)
    ensures list == [Usage("Transport", 20.0, 10.0, Some(200.0)),
                     Usage("Food", 80.0, 100.0, Some(80.0)),
                     Usage("Bills", 0.0, 0.0, None)]
  {
    FixtureUsages();
    assert FixtureBudgets().Keys + FixtureSpent().Keys == {"Transport", "Food", "Bills"};
    ThreeCategoryUsage(FixtureBudgets(), FixtureSpent(), list, "Transport", "Food", "Bills");
  }
}
