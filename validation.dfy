/**
 * The request schemas of `src/lib/validation/transaction.ts`: the body of a
 * new transaction and the query of the transaction list, each turned into
 * a normalised value or the list of the fields that failed.
 */
module TransactionValidation {
  import opened Wrappers
  import opened Text
  import opened JsNumber

  /**
   * Whether `s` has the layout of `pattern`, where `d` stands for one ASCII
   * digit and any other character for itself: `/^\d{4}-\d{2}-\d{2}$/` is
   * the pattern "dddd-dd-dd".
   */
  predicate MatchesLayout(s: string, pattern: string) {
    |s| == |pattern|
    && forall i :: 0 <= i < |s| ==> if pattern[i] == 'd' then IsDigit(s[i]) else s[i] == pattern[i]
  }

  /** `/^\d{4}-\d{2}-\d{2}$/`: the calendar-date layout, with no calendar check. */
  predicate IsDateLayout(s: string) {
    MatchesLayout(s, "dddd-dd-dd")
  }

  /** `/^\d{4}-\d{2}$/`: the year-month layout. */
  predicate IsMonthLayout(s: string) {
    MatchesLayout(s, "dddd-dd")
  }

  /** A JSON value as the body parser hands it over; `Absent` is a missing key. */
  datatype JsonValue = Absent | Null | Text(s: string) | Numeric(x: real)

  /** `Number(v)` as `z.coerce.number()` applies it. */
  function CoerceNumber(v: JsonValue): (n: Number)
    ensures v.Numeric? ==> n == Finite(v.x)
    ensures v.Absent? ==> n == NaN
  {
    match v
    case Absent => NaN
    case Null => Finite(0.0)
    case Text(s) => StringToNumber(s)
    case Numeric(x) => Finite(x)
  }

  /** `z.enum(["INCOME", "EXPENSE"])`. */
  function KindField(v: JsonValue): Option<string> {
    if v.Text? && (v.s == "INCOME" || v.s == "EXPENSE") then Some(v.s) else None
  }

  /** `z.coerce.number().finite().positive()`. */
  function AmountField(v: JsonValue): Option<real> {
    var n := CoerceNumber(v);
    if n.Finite? && n.value > 0.0 then Some(n.value) else None
  }

  /** `z.string().trim().min(lo).max(hi)`: the trimmed text when its length fits. */
  function TrimmedField(v: JsonValue, lo: nat, hi: nat): Option<string> {
    if v.Text? && lo <= |Trim(v.s)| <= hi then Some(Trim(v.s)) else None
  }

  /** `z.string().regex(/^\d{4}-\d{2}-\d{2}$/)`: the text unchanged. */
  function DateField(v: JsonValue): Option<string> {
    if v.Text? && IsDateLayout(v.s) then Some(v.s) else None
  }

  /** `z.string().trim().max(200).optional()`: an absent note is accepted as absent. */
  function NoteField(v: JsonValue): Option<Option<string>> {
    if v.Absent? then Some(None)
    else if v.Text? && |Trim(v.s)| <= 200 then Some(Some(Trim(v.s)))
    else None
  }

  datatype CreateBody = CreateBody(kind: JsonValue, amount: JsonValue, category: JsonValue, date: JsonValue, note: JsonValue)

  /** The normalised body of `transactionCreateSchema`. */
  datatype NewTransaction = NewTransaction(kind: string, amount: real, category: string, date: string, note: Option<string>)

  /** The names of the fields that fail, in declaration order. */
  function CreateErrors(b: CreateBody): seq<string> {
    (if KindField(b.kind).None? then ["type"] else [])
    + (if AmountField(b.amount).None? then ["amount"] else [])
    + (if TrimmedField(b.category, 1, 50).None? then ["category"] else [])
    + (if DateField(b.date).None? then ["date"] else [])
    + (if NoteField(b.note).None? then ["note"] else [])
  }

  /** `transactionCreateSchema.safeParse(body)`. */
  function ParseCreate(b: CreateBody): (r: Result<NewTransaction, seq<string>>)
    ensures r.Failure? ==> r.error != [] && r.error == CreateErrors(b)
  {
    if CreateErrors(b) != [] then Failure(CreateErrors(b))
    else Success(NewTransaction(KindField(b.kind).value, AmountField(b.amount).value,
                                TrimmedField(b.category, 1, 50).value, DateField(b.date).value,
                                NoteField(b.note).value))
  }

  /** What an accepted transaction satisfies. */
  predicate ValidTransaction(t: NewTransaction) {
    && (t.kind == "INCOME" || t.kind == "EXPENSE")
    && t.amount > 0.0
    && IsTrimmed(t.category) && 1 <= |t.category| <= 50
    && IsDateLayout(t.date)
    && (t.note.Some? ==> IsTrimmed(t.note.value) && |t.note.value| <= 200)
  }

  /**
   * The body is accepted exactly when every rule holds of the raw input,
   * and then the values are the trimmed, coerced ones.
   */
  lemma CreateAcceptance(b: CreateBody)
    ensures ParseCreate(b).Success? <==>
      && b.kind.Text? && (b.kind.s == "INCOME" || b.kind.s == "EXPENSE")
      && CoerceNumber(b.amount).Finite? && CoerceNumber(b.amount).value > 0.0
      && b.category.Text? && 1 <= |Trim(b.category.s)| <= 50
      && b.date.Text? && IsDateLayout(b.date.s)
      && (b.note.Absent? || (b.note.Text? && |Trim(b.note.s)| <= 200))
    ensures ParseCreate(b).Success? ==>
      var t := ParseCreate(b).value;
      && ValidTransaction(t)
      && t.kind == b.kind.s && t.amount == CoerceNumber(b.amount).value
      && t.category == Trim(b.category.s) && t.date == b.date.s
      && t.note == (if b.note.Absent? then None else Some(Trim(b.note.s)))
  {
    if ParseCreate(b).Success? {
      TrimIdempotent(b.category.s);
      if b.note.Text? {
        TrimIdempotent(b.note.s);
      }
    }
  }

  /** The body that sends a transaction's own values. */
  function CreateBodyOf(t: NewTransaction): CreateBody {
    CreateBody(Text(t.kind), Numeric(t.amount), Text(t.category), Text(t.date),
               if t.note.Some? then Text(t.note.value) else Absent)
  }

  /** Every valid transaction is accepted back unchanged: the schema is a normaliser. */
  lemma CreateRoundTrip(t: NewTransaction)
    requires ValidTransaction(t)
    ensures ParseCreate(CreateBodyOf(t)) == Success(t)
  {
    TrimOfTrimmed(t.category);
    if t.note.Some? {
      TrimOfTrimmed(t.note.value);
    }
  }

  /** The date rule is a layout check only: the 31st of February passes. */
  lemma DateLayoutOnly()
    ensures IsDateLayout("2026-02-31")
    ensures !IsDateLayout("2026-2-3")
  {
  }

  /** `z.coerce.number().int().min(lo).max(hi).default(d)` on one query parameter. */
  function IntParam(v: Option<string>, default: int, lo: int, hi: Option<int>): Option<int> {
    if v.None? then Some(default)
    else
      var n := StringToNumber(v.value);
      if n.Finite? && n.value == n.value.Floor as real && n.value.Floor >= lo
         && (hi.None? || n.value.Floor <= hi.value)
      then Some(n.value.Floor)
      else None
  }

  /** `z.enum(["INCOME", "EXPENSE"]).optional()`. */
  function KindParam(v: Option<string>): Option<Option<string>> {
    if v.None? then Some(None)
    else if v.value == "INCOME" || v.value == "EXPENSE" then Some(v)
    else None
  }

  /** `z.string().trim().max(100).optional()`. */
  function CategoryParam(v: Option<string>): Option<Option<string>> {
    if v.None? then Some(None)
    else if |Trim(v.value)| <= 100 then Some(Some(Trim(v.value)))
    else None
  }

  /** `z.string().regex(/^\d{4}-\d{2}$/).optional()`. */
  function MonthParam(v: Option<string>): Option<Option<string>> {
    if v.None? then Some(None)
    else if IsMonthLayout(v.value) then Some(v)
    else None
  }

  /** The query string parameters the list reads; `None` is a missing parameter. */
  datatype ListParams = ListParams(page: Option<string>, limit: Option<string>, kind: Option<string>,
                                   category: Option<string>, month: Option<string>)

  datatype ListQuery = ListQuery(page: int, limit: int, kind: Option<string>, category: Option<string>, month: Option<string>)

  function ListErrors(p: ListParams): seq<string> {
    (if IntParam(p.page, 1, 1, None).None? then ["page"] else [])
    + (if IntParam(p.limit, 10, 1, Some(50)).None? then ["limit"] else [])
    + (if KindParam(p.kind).None? then ["type"] else [])
    + (if CategoryParam(p.category).None? then ["category"] else [])
    + (if MonthParam(p.month).None? then ["month"] else [])
  }

  /** `transactionListQuerySchema.safeParse(query)`. */
  function ParseList(p: ListParams): (r: Result<ListQuery, seq<string>>)
    ensures r.Failure? ==> r.error != [] && r.error == ListErrors(p)
  {
    if ListErrors(p) != [] then Failure(ListErrors(p))
    else Success(ListQuery(IntParam(p.page, 1, 1, None).value, IntParam(p.limit, 10, 1, Some(50)).value,
                           KindParam(p.kind).value, CategoryParam(p.category).value, MonthParam(p.month).value))
  }

  /** What an accepted list query satisfies. */
  predicate ValidListQuery(q: ListQuery) {
    && q.page >= 1
    && 1 <= q.limit <= 50
    && (q.kind.Some? ==> q.kind.value == "INCOME" || q.kind.value == "EXPENSE")
    && (q.category.Some? ==> IsTrimmed(q.category.value) && |q.category.value| <= 100)
    && (q.month.Some? ==> IsMonthLayout(q.month.value))
  }

  /** An accepted query is valid, and absent page and limit default to 1 and 10. */
  lemma ListAccepted(p: ListParams)
    requires ParseList(p).Success?
    ensures ValidListQuery(ParseList(p).value)
    ensures p.page.None? ==> ParseList(p).value.page == 1
    ensures p.limit.None? ==> ParseList(p).value.limit == 10
  {
    if p.category.Some? {
      TrimIdempotent(p.category.value);
    }
  }

  /** An empty query string is the first page of ten. */
  lemma ListDefaults()
    ensures ParseList(ListParams(None, None, None, None, None)) == Success(ListQuery(1, 10, None, None, None))
  {
  }

  /** A limit of 0 or above 50 is refused. */
  lemma ListRejectsOutOfRange(p: ListParams, k: nat)
    requires p.limit == Some(NatToString(k)) && (k == 0 || k > 50)
    ensures ParseList(p).Failure? && "limit" in ParseList(p).error
  {
    NatRoundTrip(k);
  }

  /** A page of 0 is refused. */
  lemma ListRejectsPageZero(p: ListParams)
    requires p.page == Some(NatToString(0))
    ensures ParseList(p).Failure? && "page" in ParseList(p).error
  {
    NatRoundTrip(0);
  }

  /**
   * The month rule checks only the layout: month 13 is accepted, and its
   * end of month is then an Invalid Date.
   */
  lemma ThirteenthMonthAccepted()
    ensures ParseList(ListParams(None, None, None, None, Some("2026-13")))
            == Success(ListQuery(1, 10, None, None, Some("2026-13")))
  {
  }

  /** The query that sends a list query's own values. */
  function ListParamsOf(q: ListQuery): ListParams
    requires q.page >= 1 && q.limit >= 1
  {
    ListParams(Some(NatToString(q.page)), Some(NatToString(q.limit)), q.kind, q.category, q.month)
  }

  /** Every valid list query is accepted back unchanged. */
  lemma ListRoundTrip(q: ListQuery)
    requires ValidListQuery(q)
    ensures ParseList(ListParamsOf(q)) == Success(q)
  {
    NatRoundTrip(q.page);
    NatRoundTrip(q.limit);
    if q.category.Some? {
      TrimOfTrimmed(q.category.value);
    }
  }
}
