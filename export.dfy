/**
 * The export endpoint of `src/pages/api/transactions/export.ts`: the
 * filters it reads from the query string, and the CSV text it writes, a
 * fixed header line followed by one escaped line per stored row, joined
 * with LF.
 *
 * The signed-in user, the first day of the following month (missing when
 * its date is invalid) and the reply of the storage service are
 * parameters.  Stored values reach the model as the text `String(value)`
 * gives them.
 */
module CsvExport {
  import opened Wrappers
  import opened Text
  import opened CsvCodec
  import opened StorageQuery

  /** The column names, in the order of every line. */
  const Header: seq<string> := ["type", "amount", "category", "date", "note", "created_at"]

  /** A stored row as text; `None` is a null or missing value. */
  datatype ExportRow = ExportRow(kind: Option<string>, amount: Option<string>, category: Option<string>,
                                 date: Option<string>, note: Option<string>, createdAt: Option<string>)

  /** The six values of a row in header order, a missing one read as "". */
  function RowValues(r: ExportRow): (v: seq<string>)
    ensures |v| == |Header|
  {
    [r.kind.GetOr(""), r.amount.GetOr(""), r.category.GetOr(""), r.date.GetOr(""),
     r.note.GetOr(""), r.createdAt.GetOr("")]
  }

  /** The line of a row: its six escaped values joined by commas. */
  function RowLine(r: ExportRow): string {
    Join([CsvEscape(r.kind), CsvEscape(r.amount), CsvEscape(r.category), CsvEscape(r.date),
          CsvEscape(Some(r.note.GetOr(""))), CsvEscape(Some(r.createdAt.GetOr("")))], ",")
  }

  /** A row's line is the comma-join of its escaped values: a missing value is written empty. */
  lemma RowLineOfValues(r: ExportRow)
    ensures RowLine(r) == Join(EscapeAll(RowValues(r)), ",")
  {
    var v := RowValues(r);
    var e := [CsvEscape(r.kind), CsvEscape(r.amount), CsvEscape(r.category), CsvEscape(r.date),
              CsvEscape(Some(r.note.GetOr(""))), CsvEscape(Some(r.createdAt.GetOr("")))];
    assert CsvEscape(None) == CsvEscape(Some(""));
    forall i | 0 <= i < 6 ensures EscapeAll(v)[i] == e[i] {
      EscapeAllAt(v, i);
    }
    assert EscapeAll(v) == e;
  }

  /** The lines of the rows, in the order storage returned them. */
  function RowLines(rows: seq<ExportRow>): (lines: seq<string>)
    ensures |lines| == |rows| && forall i :: 0 <= i < |rows| ==> lines[i] == RowLine(rows[i])
  {
    seq(|rows|, i requires 0 <= i < |rows| => RowLine(rows[i]))
  }

  /** The CSV text: the header line, then one line per row, joined with LF. */
  method BuildCsv(rows: seq<ExportRow>) returns (csv: string)
    ensures csv == Join([Join(Header, ",")] + RowLines(rows), "\n")
  {
    var lines := [Join(Header, ",")];
    for i := 0 to |rows|
      invariant lines == [Join(Header, ",")] + RowLines(rows[..i])
    {
      assert RowLines(rows[..i + 1]) == RowLines(rows[..i]) + [RowLine(rows[i])];
      lines := lines + [RowLine(rows[i])];
    }
    assert rows[..|rows|] == rows;
    csv := Join(lines, "\n");
  }

  /** A join of two or more pieces starts with the first piece and a separator. */
  lemma JoinCons(a: string, rest: seq<string>, sep: string)
    requires |rest| >= 1
    ensures Join([a] + rest, sep) == a + sep + Join(rest, sep)
  {
    assert ([a] + rest)[1..] == rest;
  }

  /** The header line is the six column names separated by commas. */
  lemma HeaderLine()
    ensures Join(Header, ",") == "type" + "," + "amount" + "," + "category" + "," + "date" + "," + "note" + "," + "created_at"
  {
    JoinCons("note", ["created_at"], ",");
    JoinCons("date", ["note", "created_at"], ",");
    JoinCons("category", ["date", "note", "created_at"], ",");
    JoinCons("amount", ["category", "date", "note", "created_at"], ",");
    JoinCons("type", ["amount", "category", "date", "note", "created_at"], ",");
    assert Header == ["type"] + ["amount", "category", "date", "note", "created_at"];
  }

  /** The header line holds no line break. */
  lemma HeaderSingle()
    ensures '\n' !in Join(Header, ",")
  {
    HeaderPlain();
    JoinKeepsOut(Header, ",", '\n');
  }

  /** A character other than the quote that a value lacks is not in its escape either. */
  lemma {:induction false} DoubleQuotesKeepsOut(s: string, c: char)
    requires c != '"' && c !in s
    ensures c !in DoubleQuotes(s)
  {
    if s != [] {
      DoubleQuotesKeepsOut(s[1..], c);
    }
  }

  lemma EscapeKeepsOut(v: Option<string>, c: char)
    requires c != '"' && (v.Some? ==> c !in v.value)
    ensures c !in CsvEscape(v)
  {
    if v.Some? {
      DoubleQuotesKeepsOut(v.value, c);
    }
  }

  /** A character in neither the pieces nor the separator is not in their join. */
  lemma {:induction false} JoinKeepsOut(parts: seq<string>, sep: string, c: char)
    requires c !in sep && forall i :: 0 <= i < |parts| ==> c !in parts[i]
    ensures c !in Join(parts, sep)
  {
    if |parts| > 1 {
      JoinKeepsOut(parts[1..], sep, c);
    }
  }

  /** A row none of whose values holds a line break. */
  predicate SingleLine(r: ExportRow) {
    forall v :: v in RowValues(r) ==> '\n' !in v
  }

  lemma RowLineSingle(r: ExportRow)
    requires SingleLine(r)
    ensures '\n' !in RowLine(r)
  {
    var v := RowValues(r);
    assert forall i :: 0 <= i < 6 ==> v[i] in v;
    EscapeKeepsOut(r.kind, '\n');
    EscapeKeepsOut(r.amount, '\n');
    EscapeKeepsOut(r.category, '\n');
    EscapeKeepsOut(r.date, '\n');
    EscapeKeepsOut(Some(r.note.GetOr("")), '\n');
    EscapeKeepsOut(Some(r.createdAt.GetOr("")), '\n');
    JoinKeepsOut([CsvEscape(r.kind), CsvEscape(r.amount), CsvEscape(r.category), CsvEscape(r.date),
                  CsvEscape(Some(r.note.GetOr(""))), CsvEscape(Some(r.createdAt.GetOr("")))], ",", '\n');
  }

  /**
   * When no value holds a line break, the text splits back into the header
   * line and one line per row, in order: rows + 1 lines and no trailing
   * newline.
   */
  lemma CsvLines(rows: seq<ExportRow>, csv: string)
    requires forall i :: 0 <= i < |rows| ==> SingleLine(rows[i])
    requires csv == Join([Join(Header, ",")] + RowLines(rows), "\n")
    ensures Split(csv, '\n') == [Join(Header, ",")] + RowLines(rows)
    ensures |Split(csv, '\n')| == |rows| + 1
  {
    var lines := [Join(Header, ",")] + RowLines(rows);
    HeaderSingle();
    forall i | 0 <= i < |lines| ensures '\n' !in lines[i] {
      if i > 0 {
        RowLineSingle(rows[i - 1]);
      }
    }
    SplitJoin(lines, '\n');
  }

  /**
   * Round trip with the import parser: the line of a row with no
   * whitespace at the ends of its values parses back into its six values.
   */
  lemma RowLineParses(r: ExportRow)
    requires forall v :: v in RowValues(r) ==> IsTrimmed(v)
    ensures ParsedFields(RowLine(r)) == RowValues(r)
  {
    var v := RowValues(r);
    assert forall i :: 0 <= i < 6 ==> v[i] in v;
    RowLineOfValues(r);
    RoundTrip(v);
  }

  /** No column name needs quoting or has whitespace at its ends. */
  lemma HeaderPlain()
    ensures forall i :: 0 <= i < |Header| ==> !NeedsQuotes(Header[i]) && IsTrimmed(Header[i])
  {
    forall i | 0 <= i < |Header| ensures !NeedsQuotes(Header[i]) && IsTrimmed(Header[i]) {
    }
  }

  /** The header line parses back into the column names. */
  lemma HeaderParses()
    ensures ParsedFields(Join(Header, ",")) == Header
  {
    HeaderPlain();
    PlainEscapes(Header);
    RoundTrip(Header);
  }

  /**
   * The filters of an export: the owner; the type only when it is exactly
   * INCOME or EXPENSE, any other value being ignored; the trimmed category
   * as a substring when not empty; and any non-empty month, unvalidated, as
   * a date range.  A parameter that is not a single string reads as "".
   */
  predicate ExportFilters(sel: Selection, user: string, kind: Option<string>, category: Option<string>,
                          month: Option<string>, nextMonthStart: Option<string>) {
    && sel.owner == user
    && (sel.kind.Some? <==> kind == Some("INCOME") || kind == Some("EXPENSE"))
    && (sel.kind.Some? ==> sel.kind == kind)
    && (sel.categoryPattern.Some? <==> category.Some? && Trim(category.value) != "")
    && (sel.categoryPattern.Some? ==> sel.categoryPattern.value == Contains(Trim(category.value)))
    && (sel.dateFrom.Some? <==> month.Some? && month.value != "")
    && (sel.dateFrom.Some? ==> sel.dateFrom.value == MonthStart(month.value))
    && sel.dateBefore == (if sel.dateFrom.Some? then nextMonthStart else None)
  }

  /**
   * The query built step by step; `None` when the end of the month throws,
   * which any non-empty month that is not a date makes happen.
   */
  method ExportSelection(user: string, kind: Option<string>, category: Option<string>, month: Option<string>,
                         nextMonthStart: Option<string>) returns (sel: Option<Selection>)
    ensures sel.None? <==> MonthEndFails(month.GetOr(""), nextMonthStart)
    ensures sel.Some? ==> ExportFilters(sel.value, user, kind, category, month, nextMonthStart)
  {
    var t := kind.GetOr("");
    var c := Trim(category.GetOr(""));
    var m := month.GetOr("");
    var s := OwnerOnly(user);
    if t == "INCOME" || t == "EXPENSE" {
      s := s.(kind := Some(t));
    }
    if c != "" {
      s := s.(categoryPattern := Some(Contains(c)));
    }
    if m != "" {
      if nextMonthStart.None? {
        return None;
      }
      s := s.(dateFrom := Some(MonthStart(m)), dateBefore := nextMonthStart);
    }
    sel := Some(s);
  }

  /** `transactions${month ? `_${month}` : ""}.csv`. */
  function FileName(month: string): (f: string)
    ensures |f| >= |"transactions.csv"| && f[..12] == "transactions" && f[|f| - 4..] == ".csv"
  {
    "transactions" + (if month != "" then "_" + month else "") + ".csv"
  }

  /** The month can be read back from the file name. */
  lemma FileNameMonth(month: string)
    ensures month == "" ==> FileName(month) == "transactions.csv"
    ensures month != "" ==> FileName(month)[12] == '_' && FileName(month)[13..|FileName(month)| - 4] == month
  {
  }

  datatype ExportOutcome =
    | MethodNotAllowed(allow: string)
    | Unauthorized
    | MonthEndFailed
    | StorageFailed(message: string)
    | Csv(fileName: string, body: string)

  function Status(o: ExportOutcome): nat {
    match o
    case MethodNotAllowed(_) => 405
    case Unauthorized => 401
    case MonthEndFailed => 500
    case StorageFailed(_) => 500
    case Csv(_, _) => 200
  }

  /**
   * The handler: the method is checked before sign-in.  `reply` is the
   * storage service's answer, an error or the rows (null read as none), and
   * `nextMonthStart` the end of the month range (see `MonthEndFails`).
   */
  method Handle(verb: string, user: Option<string>, kind: Option<string>, category: Option<string>,
                month: Option<string>, nextMonthStart: Option<string>, reply: Result<Option<seq<ExportRow>>, string>)
    returns (o: ExportOutcome, sel: Option<Selection>)
    ensures o.MethodNotAllowed? <==> verb != "GET"
    ensures o.MethodNotAllowed? ==> o.allow == "GET" && sel.None?
    ensures o == Unauthorized <==> verb == "GET" && !SignedIn(user)
    ensures o == Unauthorized ==> sel.None?
    ensures o == MonthEndFailed <==> verb == "GET" && SignedIn(user) && MonthEndFails(month.GetOr(""), nextMonthStart)
    ensures o == MonthEndFailed ==> sel.None?
    ensures verb == "GET" && SignedIn(user) && !MonthEndFails(month.GetOr(""), nextMonthStart) ==>
              sel.Some? && ExportFilters(sel.value, user.value, kind, category, month, nextMonthStart)
    ensures o.StorageFailed? <==>
              verb == "GET" && SignedIn(user) && !MonthEndFails(month.GetOr(""), nextMonthStart) && reply.Failure?
    ensures o.StorageFailed? ==> o.message == reply.error
    ensures o.Csv? <==>
              verb == "GET" && SignedIn(user) && !MonthEndFails(month.GetOr(""), nextMonthStart) && reply.Success?
    ensures o.Csv? ==>
              && o.fileName == FileName(month.GetOr(""))
              && o.body == Join([Join(Header, ",")] + RowLines(reply.value.GetOr([])), "\n")
  {
    if verb != "GET" {
      return MethodNotAllowed("GET"), None;
    }
    if !SignedIn(user) {
      return Unauthorized, None;
    }
    sel := ExportSelection(user.value, kind, category, month, nextMonthStart);
    if sel.None? {
      return MonthEndFailed, None;
    }
    if reply.Failure? {
      return StorageFailed(reply.error), sel;
    }
    var body := BuildCsv(reply.value.GetOr([]));
    o := Csv(FileName(month.GetOr("")), body);
  }
}
