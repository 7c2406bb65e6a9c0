/**
 * The import endpoint of `src/pages/api/transactions/import.ts`: the
 * pipeline from the posted CSV text to the rows handed to storage.  Line
 * endings are normalised, blank lines at either end are dropped, the header
 * names the columns, every data line is checked on its own, any error
 * refuses the whole file, and the accepted rows are inserted 500 at a time.
 *
 * The signed-in user and the replies of the storage service to each insert
 * are parameters.
 */
module CsvImport {
  import opened Wrappers
  import opened Text
  import opened JsNumber
  import opened CsvCodec
  import opened TransactionValidation
  import opened StorageQuery

  // ---------------------------------------------------------------------
  // Line splitting

  /** `s.replace(/\r\n/g, "\n")`. */
  function ReplaceCrLf(s: string): (r: string)
    ensures |r| <= |s|
    decreases |s|
  {
    if s == [] then []
    else if |s| >= 2 && s[0] == '\r' && s[1] == '\n' then "\n" + ReplaceCrLf(s[2..])
    else [s[0]] + ReplaceCrLf(s[1..])
  }

  /** `s.replace(/\r/g, "\n")`. */
  function ReplaceCr(s: string): (r: string)
    ensures |r| == |s| && '\r' !in r
    ensures forall i :: 0 <= i < |s| ==> r[i] == if s[i] == '\r' then '\n' else s[i]
  {
    seq(|s|, i requires 0 <= i < |s| => if s[i] == '\r' then '\n' else s[i])
  }

  /** Every line ending, CRLF or a lone CR, becomes LF. */
  function NormalizeNewlines(s: string): (r: string)
    ensures '\r' !in r
  {
    ReplaceCr(ReplaceCrLf(s))
  }

  /** Text without CR is left as it is. */
  lemma {:induction false} NormalizeWithoutCr(s: string)
    requires '\r' !in s
    ensures NormalizeNewlines(s) == s
  {
    NoCrLf(s);
  }

  lemma {:induction false} NoCrLf(s: string)
    requires '\r' !in s
    ensures ReplaceCrLf(s) == s
    decreases |s|
  {
    if s != [] {
      NoCrLf(s[1..]);
      assert s == [s[0]] + s[1..];
    }
  }

  /** Lines joined with CRLF or with LF split into the same lines. */
  lemma {:induction false} CrLfJoin(lines: seq<string>)
    requires forall i :: 0 <= i < |lines| ==> '\r' !in lines[i] && '\n' !in lines[i]
    ensures ReplaceCrLf(Join(lines, "\r\n")) == Join(lines, "\n")
  {
    if |lines| == 1 {
      NoCrLf(lines[0]);
    } else if |lines| > 1 {
      CrLfJoin(lines[1..]);
      NoCrLfPrefix(lines[0], "\r\n" + Join(lines[1..], "\r\n"));
      var tail := Join(lines[1..], "\r\n");
      assert ("\r\n" + tail)[2..] == tail;
      assert lines[0] + "\r\n" + tail == lines[0] + ("\r\n" + tail);
      assert lines[0] + "\n" + Join(lines[1..], "\n") == lines[0] + ("\n" + Join(lines[1..], "\n"));
    }
  }

  lemma {:induction false} NoCrLfPrefix(a: string, b: string)
    requires '\r' !in a
    ensures ReplaceCrLf(a + b) == a + ReplaceCrLf(b)
    decreases |a|
  {
    if a == [] {
      assert a + b == b;
    } else {
      assert (a + b)[1..] == a[1..] + b;
      NoCrLfPrefix(a[1..], b);
      assert [a[0]] + (a[1..] + ReplaceCrLf(b)) == a + ReplaceCrLf(b);
    }
  }

  /** A line ending the source recognises: CRLF, a lone CR or LF. */
  predicate IsLineBreak(sep: string) {
    sep == "\r\n" || sep == "\r" || sep == "\n"
  }

  /** The lines joined with the line ending `seps[i]` after line `i`. */
  function JoinWith(lines: seq<string>, seps: seq<string>): string
    requires |lines| == |seps| + 1
    decreases |seps|
  {
    if seps == [] then lines[0] else lines[0] + seps[0] + JoinWith(lines[1..], seps[1..])
  }

  /**
   * No CR ending is directly followed by an LF ending across an empty line:
   * the source would read that CR and LF as one CRLF.
   */
  predicate CrStaysLone(lines: seq<string>, seps: seq<string>)
    requires |lines| == |seps| + 1
  {
    forall i :: 0 <= i < |seps| - 1 && seps[i] == "\r" && lines[i + 1] == "" ==> seps[i + 1] != "\n"
  }

  /**
   * A text written with any mix of CRLF, lone CR and LF endings has, after
   * normalisation, the same lines joined by LF.
   */
  lemma {:induction false} MixedLineEndings(lines: seq<string>, seps: seq<string>)
    requires |lines| == |seps| + 1
    requires forall i :: 0 <= i < |lines| ==> '\r' !in lines[i] && '\n' !in lines[i]
    requires forall i :: 0 <= i < |seps| ==> IsLineBreak(seps[i])
    requires CrStaysLone(lines, seps)
    ensures NormalizeNewlines(JoinWith(lines, seps)) == Join(lines, "\n")
    decreases |seps|
  {
    if seps == [] {
      NormalizeWithoutCr(lines[0]);
    } else {
      var rest := JoinWith(lines[1..], seps[1..]);
      assert CrStaysLone(lines[1..], seps[1..]) by {
        forall i | 0 <= i < |seps[1..]| - 1 && seps[1..][i] == "\r" && lines[1..][i + 1] == ""
          ensures seps[1..][i + 1] != "\n"
        {
          assert seps[i + 1] == "\r" && lines[i + 2] == "";
        }
      }
      MixedLineEndings(lines[1..], seps[1..]);
      if seps[0] == "\r" {
        LoneCrRest(lines, seps);
      }
      NormalizeStep(lines[0], seps[0], rest);
    }
  }

  /** After a lone CR ending, the rest of the text does not start with LF. */
  lemma LoneCrRest(lines: seq<string>, seps: seq<string>)
    requires |lines| == |seps| + 1 && seps != [] && seps[0] == "\r"
    requires forall i :: 0 <= i < |lines| ==> '\n' !in lines[i]
    requires forall i :: 0 <= i < |seps| ==> IsLineBreak(seps[i])
    requires CrStaysLone(lines, seps)
    ensures var rest := JoinWith(lines[1..], seps[1..]);
            rest == [] || rest[0] != '\n'
  {
    var rest := JoinWith(lines[1..], seps[1..]);
    if lines[1] != "" {
      assert rest[0] == lines[1][0];
      assert lines[1][0] in lines[1];
    } else if |seps| > 1 {
      assert seps[1] != "\n";
      assert rest == seps[1] + JoinWith(lines[2..], seps[2..]);
      assert rest[0] == seps[1][0];
    }
  }

  /** One line and its ending normalise to the line and LF. */
  lemma NormalizeStep(line: string, sep: string, rest: string)
    requires '\r' !in line && '\n' !in line && IsLineBreak(sep)
    requires sep == "\r" ==> rest == [] || rest[0] != '\n'
    ensures NormalizeNewlines(line + sep + rest) == line + "\n" + NormalizeNewlines(rest)
  {
    var brk := if sep == "\r" then "\r" else "\n";
    CrLfStep(line, sep, rest);
    CrStep(line, brk, ReplaceCrLf(rest));
  }

  /** The first pass keeps the line and turns its ending into a single CR or LF. */
  lemma CrLfStep(line: string, sep: string, rest: string)
    requires '\r' !in line && IsLineBreak(sep)
    requires sep == "\r" ==> rest == [] || rest[0] != '\n'
    ensures ReplaceCrLf(line + sep + rest) == line + (if sep == "\r" then "\r" else "\n") + ReplaceCrLf(rest)
  {
    var tail := sep + rest;
    var brk := if sep == "\r" then "\r" else "\n";
    LineBreakStep(sep, rest);
    NoCrLfPrefix(line, tail);
    assert line + sep + rest == line + tail;
    assert line + (brk + ReplaceCrLf(rest)) == line + brk + ReplaceCrLf(rest);
  }

  /** The second pass keeps the line and turns a CR or LF ending into LF. */
  lemma CrStep(line: string, brk: string, rest: string)
    requires '\r' !in line && (brk == "\r" || brk == "\n")
    ensures ReplaceCr(line + brk + rest) == line + "\n" + ReplaceCr(rest)
  {
    ReplaceCrAppend(line + brk, rest);
    ReplaceCrAppend(line, brk);
    NormalizeWithoutCr(line);
    NoCrLf(line);
    assert ReplaceCr(brk) == "\n";
  }

  /** One line ending: CRLF and LF become LF; a CR not followed by LF stays for the next step. */
  lemma LineBreakStep(sep: string, rest: string)
    requires IsLineBreak(sep)
    requires sep == "\r" ==> rest == [] || rest[0] != '\n'
    ensures ReplaceCrLf(sep + rest) == (if sep == "\r" then "\r" else "\n") + ReplaceCrLf(rest)
  {
    if sep == "\r\n" {
      assert (sep + rest)[2..] == rest;
    } else {
      assert (sep + rest)[1..] == rest;
    }
  }

  /** `replace(/\r/g, "\n")` works piece by piece. */
  lemma ReplaceCrAppend(a: string, b: string)
    ensures ReplaceCr(a + b) == ReplaceCr(a) + ReplaceCr(b)
  {
  }

  /** The lines of a posted text, before the blank ones at the ends are dropped. */
  function RawLines(csv: string): (lines: seq<string>)
    ensures |lines| >= 1
  {
    Split(NormalizeNewlines(csv), '\n')
  }

  /** A file written with Windows line endings has the same lines. */
  lemma WindowsLineEndings(lines: seq<string>)
    requires |lines| >= 1
    requires forall i :: 0 <= i < |lines| ==> '\r' !in lines[i] && '\n' !in lines[i]
    ensures RawLines(Join(lines, "\r\n")) == lines
  {
    var t := Join(lines, "\n");
    CrLfJoin(lines);
    JoinKeepsCrOut(lines, "\n");
    NormalizeWithoutCr(t);
    assert ReplaceCr(t) == t;
    assert NormalizeNewlines(Join(lines, "\r\n")) == t;
    SplitJoin(lines, '\n');
  }

  lemma {:induction false} JoinKeepsCrOut(parts: seq<string>, sep: string)
    requires '\r' !in sep && forall i :: 0 <= i < |parts| ==> '\r' !in parts[i]
    ensures '\r' !in Join(parts, sep)
  {
    if |parts| > 1 {
      JoinKeepsCrOut(parts[1..], sep);
    }
  }

  // ---------------------------------------------------------------------
  // Dropping blank lines at either end

  /** The first line at or after `i` that is not blank. */
  function FirstSolid(lines: seq<string>, i: nat): (j: nat)
    requires i <= |lines|
    ensures i <= j <= |lines|
    decreases |lines| - i
  {
    if i < |lines| && IsBlank(lines[i]) then FirstSolid(lines, i + 1) else i
  }

  lemma {:induction false} FirstSolidSkips(lines: seq<string>, i: nat)
    requires i <= |lines|
    ensures var j := FirstSolid(lines, i);
            (forall k :: i <= k < j ==> IsBlank(lines[k])) && (j < |lines| ==> !IsBlank(lines[j]))
    decreases |lines| - i
  {
    if i < |lines| && IsBlank(lines[i]) {
      FirstSolidSkips(lines, i + 1);
    }
  }

  /** The end of `lines[..j]` once the blank lines at its end are dropped. */
  function SolidEnd(lines: seq<string>, j: nat): (e: nat)
    requires j <= |lines|
    ensures e <= j
  {
    if j > 0 && IsBlank(lines[j - 1]) then SolidEnd(lines, j - 1) else j
  }

  lemma {:induction false} SolidEndSkips(lines: seq<string>, j: nat)
    requires j <= |lines|
    ensures var e := SolidEnd(lines, j);
            (forall k :: e <= k < j ==> IsBlank(lines[k])) && (e > 0 ==> !IsBlank(lines[e - 1]))
  {
    if j > 0 && IsBlank(lines[j - 1]) {
      SolidEndSkips(lines, j - 1);
    }
  }

  /** The lines from the first that is not blank. */
  function LeadTrimmed(lines: seq<string>): seq<string> {
    lines[FirstSolid(lines, 0)..]
  }

  /** The lines up to the last that is not blank. */
  function TailTrimmed(lines: seq<string>): seq<string> {
    lines[..SolidEnd(lines, |lines|)]
  }

  /** The lines without the blank ones at either end. */
  function TrimmedLines(lines: seq<string>): (r: seq<string>)
    ensures r == [] || (!IsBlank(r[0]) && !IsBlank(r[|r| - 1]))
  {
    var rest := LeadTrimmed(lines);
    var e := SolidEnd(rest, |rest|);
    FirstSolidSkips(lines, 0);
    SolidEndSkips(rest, |rest|);
    assert e > 0 ==> rest[..e][0] == rest[0] == lines[FirstSolid(lines, 0)] && rest[..e][e - 1] == rest[e - 1];
    TailTrimmed(rest)
  }

  /**
   * The kept lines are a run of the lines with only blank lines outside it;
   * together with the ends of the run not being blank, this says that
   * exactly the blank lines at either end are dropped.
   */
  lemma TrimmedLinesExact(lines: seq<string>)
    ensures var r := TrimmedLines(lines);
            var a := FirstSolid(lines, 0);
            && a + |r| <= |lines| && r == lines[a..a + |r|]
            && (forall k :: 0 <= k < a ==> IsBlank(lines[k]))
            && (forall k :: a + |r| <= k < |lines| ==> IsBlank(lines[k]))
  {
    var a := FirstSolid(lines, 0);
    var rest := lines[a..];
    var e := SolidEnd(rest, |rest|);
    assert TrimmedLines(lines) == rest[..e];
    FirstSolidSkips(lines, 0);
    SolidEndSkips(rest, |rest|);
    BlankTailShift(lines, a, e);
  }

  /** Blank lines at the end of `lines[a..]` are blank lines at the end of `lines`. */
  lemma BlankTailShift(lines: seq<string>, a: nat, e: nat)
    requires a + e <= |lines|
    requires forall k :: e <= k < |lines| - a ==> IsBlank(lines[a..][k])
    ensures lines[a..][..e] == lines[a..a + e]
    ensures forall k :: a + e <= k < |lines| ==> IsBlank(lines[k])
  {
    forall k | a + e <= k < |lines| ensures IsBlank(lines[k]) {
      assert lines[a..][k - a] == lines[k];
    }
  }

  /** The two `while` loops that shift and pop blank lines. */
  method DropBlankEdges(lines: seq<string>) returns (kept: seq<string>)
    ensures kept == TrimmedLines(lines)
  {
    kept := ShiftBlank(lines);
    kept := PopBlank(kept);
  }

  /** `while (lines.length && !lines[0].trim()) lines.shift()`. */
  method ShiftBlank(lines: seq<string>) returns (kept: seq<string>)
    ensures kept == LeadTrimmed(lines)
  {
    kept := lines;
    ghost var a := 0;
    while |kept| > 0 && IsBlank(kept[0])
      invariant a <= |lines| && kept == lines[a..]
      invariant FirstSolid(lines, a) == FirstSolid(lines, 0)
      decreases |kept|
    {
      DropFirstLine(lines, a);
      kept := kept[1..];
      a := a + 1;
    }
  }

  /** `while (lines.length && !lines[lines.length - 1].trim()) lines.pop()`. */
  method PopBlank(lines: seq<string>) returns (kept: seq<string>)
    ensures kept == TailTrimmed(lines)
  {
    kept := lines;
    while |kept| > 0 && IsBlank(kept[|kept| - 1])
      invariant |kept| <= |lines| && kept == lines[..|kept|]
      invariant SolidEnd(lines, |kept|) == SolidEnd(lines, |lines|)
      decreases |kept|
    {
      DropLastLine(lines, |kept|);
      kept := kept[..|kept| - 1];
    }
  }

  lemma DropFirstLine(lines: seq<string>, a: nat)
    requires a < |lines|
    ensures lines[a..][0] == lines[a] && lines[a..][1..] == lines[a + 1..]
  {
  }

  lemma DropLastLine(lines: seq<string>, e: nat)
    requires 0 < e <= |lines|
    ensures lines[..e][e - 1] == lines[e - 1] && lines[..e][..e - 1] == lines[..e - 1]
  {
  }

  // ---------------------------------------------------------------------
  // The header

  /** `h.trim().toLowerCase()`. */
  function NormalizeHeader(h: string): string {
    ToLower(Trim(h))
  }

  /** The header line's cells, trimmed and lower-cased. */
  function HeaderCells(header: string): (cells: seq<string>)
    ensures |cells| == |ParsedFields(header)|
    ensures forall i :: 0 <= i < |cells| ==> cells[i] == NormalizeHeader(ParsedFields(header)[i])
  {
    var fields := ParsedFields(header);
    seq(|fields|, i requires 0 <= i < |fields| => NormalizeHeader(fields[i]))
  }

  /** `cells.indexOf(name)`: the first position holding `name`, or -1. */
  function IndexOf(cells: seq<string>, name: string): (i: int)
    ensures -1 <= i < |cells|
    ensures i == -1 <==> name !in cells
    ensures i >= 0 ==> cells[i] == name && name !in cells[..i]
  {
    if cells == [] then -1
    else if cells[0] == name then 0
    else
      var j := IndexOf(cells[1..], name);
      assert j >= 0 ==> cells[..j + 1] == [cells[0]] + cells[1..][..j];
      if j == -1 then -1 else j + 1
  }

  /** The columns the import needs, in the order they are reported missing. */
  const Required: seq<string> := ["type", "amount", "category", "date"]

  /** The required columns the header lacks, in the order of `Required`. */
  function MissingColumns(cells: seq<string>): seq<string> {
    (if IndexOf(cells, "type") == -1 then ["type"] else [])
    + (if IndexOf(cells, "amount") == -1 then ["amount"] else [])
    + (if IndexOf(cells, "category") == -1 then ["category"] else [])
    + (if IndexOf(cells, "date") == -1 then ["date"] else [])
  }

  /** A column is reported exactly when it is required and absent. */
  lemma MissingColumnsExact(cells: seq<string>)
    ensures forall n :: n in MissingColumns(cells) <==> n in Required && n !in cells
  {
  }

  /** The missing columns are reported each at most once, in the order of `Required`. */
  lemma MissingColumnsOrdered(cells: seq<string>)
    ensures forall i, j :: 0 <= i < j < |MissingColumns(cells)| ==>
              Rank(MissingColumns(cells)[i]) < Rank(MissingColumns(cells)[j])
  {
  }

  /** The position of a required column in `Required`. */
  function Rank(n: string): nat {
    if n == "type" then 0 else if n == "amount" then 1 else if n == "category" then 2 else 3
  }

  /** The detail line of a header that lacks required columns. */
  function MissingMessage(missing: seq<string>): string {
    "Required headers: type, amount, category, date. Missing: " + Join(missing, ", ")
  }

  /** Where each column sits; the note column may be absent (-1). */
  datatype Columns = Columns(kind: nat, amount: nat, category: nat, date: nat, note: int)

  /** The columns of a header that has every required one. */
  function ColumnsOf(cells: seq<string>): (cols: Columns)
    requires MissingColumns(cells) == []
    ensures cols.kind < |cells| && cols.amount < |cells| && cols.category < |cells| && cols.date < |cells|
    ensures cells[cols.kind] == "type" && cells[cols.amount] == "amount"
    ensures cells[cols.category] == "category" && cells[cols.date] == "date"
    ensures cols.note == -1 <==> "note" !in cells
    ensures cols.note >= 0 ==> cols.note < |cells| && cells[cols.note] == "note"
  {
    Columns(IndexOf(cells, "type"), IndexOf(cells, "amount"), IndexOf(cells, "category"),
            IndexOf(cells, "date"), IndexOf(cells, "note"))
  }

  /** The names lower-cased, one by one. */
  function LowerAll(names: seq<string>): (r: seq<string>)
    ensures |r| == |names| && forall i :: 0 <= i < |names| ==> r[i] == ToLower(names[i])
  {
    seq(|names|, i requires 0 <= i < |names| => ToLower(names[i]))
  }

  /** Names that can be written into a header line as they are. */
  predicate PlainNames(names: seq<string>) {
    forall i :: 0 <= i < |names| ==> IsTrimmed(names[i]) && !NeedsQuotes(names[i])
  }

  /** Every required column is among the cells. */
  predicate RequiredPresent(cells: seq<string>) {
    "type" in cells && "amount" in cells && "category" in cells && "date" in cells
  }

  /**
   * Header names are matched without regard to letter case or order: a
   * header of plain names that lower-case to every required column lacks
   * none.
   */
  lemma HeaderAnyCase(names: seq<string>)
    requires |names| >= 1 && PlainNames(names) && RequiredPresent(LowerAll(names))
    ensures MissingColumns(HeaderCells(Join(names, ","))) == []
  {
    PlainHeaderCells(names);
    NoneMissing(LowerAll(names));
  }

  lemma NoneMissing(cells: seq<string>)
    requires RequiredPresent(cells)
    ensures MissingColumns(cells) == []
  {
  }

  /** The cells of a header of plain names are the names lower-cased. */
  lemma PlainHeaderCells(names: seq<string>)
    requires |names| >= 1 && PlainNames(names)
    ensures HeaderCells(Join(names, ",")) == LowerAll(names)
  {
    PlainEscapes(names);
    RoundTrip(names);
    forall i | 0 <= i < |names| ensures Trim(names[i]) == names[i] {
      TrimOfTrimmed(names[i]);
    }
  }

  // ---------------------------------------------------------------------
  // One data line

  /** `cells[i] ?? ""`: a cell past the end of the line reads as "". */
  function Cell(cells: seq<string>, i: int): (c: string)
    ensures 0 <= i < |cells| ==> c == cells[i]
    ensures !(0 <= i < |cells|) ==> c == ""
  {
    if 0 <= i < |cells| then cells[i] else ""
  }

  /** Why a data line was refused; `line` is the 1-based position among the kept lines. */
  datatype LineError =
    | InvalidType(line: nat, value: string)
    | InvalidAmount(line: nat, value: string)
    | MissingCategory(line: nat)
    | InvalidDate(line: nat, value: string)

  /** The text reported for a refused line: its number, then what is wrong. */
  function Message(e: LineError): string {
    "Line " + NatToString(e.line) + ": " + Complaint(e)
  }

  /** What is wrong with a refused line, quoting the offending value. */
  function Complaint(e: LineError): string {
    match e
    case InvalidType(_, v) => "invalid type \"" + v + "\" (must be INCOME or EXPENSE)"
    case InvalidAmount(_, v) => "invalid amount \"" + v + "\" (must be positive number)"
    case MissingCategory(_) => "category is required"
    case InvalidDate(_, v) => "invalid date \"" + v + "\" (must be YYYY-MM-DD)"
  }

  /** Every message starts with its line number, which reads back from the digits. */
  lemma MessageLine(e: LineError)
    ensures |NatToString(e.line)| + 7 <= |Message(e)|
    ensures Message(e)[..5] == "Line "
    ensures Message(e)[5 + |NatToString(e.line)|..7 + |NatToString(e.line)|] == ": "
    ensures DigitsValue(Message(e)[5..5 + |NatToString(e.line)|]) == e.line
  {
    var digits := NatToString(e.line);
    Pieces("Line ", digits, ": ", Complaint(e));
    NatToStringValue(e.line);
  }

  lemma Pieces(a: string, b: string, c: string, d: string)
    ensures var s := a + b + c + d;
            && s[..|a|] == a && s[|a|..|a| + |b|] == b && s[|a| + |b|..|a| + |b| + |c|] == c
  {
    var s := a + b + c + d;
    assert s == a + (b + (c + d));
    assert s[|a|..] == b + (c + d);
    assert s[|a| + |b|..] == c + d;
  }

  /** A row ready for storage. */
  datatype ImportRow = ImportRow(owner: string, kind: string, amount: real, category: string, date: string,
                                 note: Option<string>)

  /** What the import promises of every row it stores. */
  predicate ValidImportRow(user: string, r: ImportRow) {
    && r.owner == user
    && (r.kind == "INCOME" || r.kind == "EXPENSE")
    && r.amount > 0.0
    && r.category != "" && IsTrimmed(r.category)
    && IsDateLayout(r.date)
    && (r.note.Some? ==> r.note.value != "" && IsTrimmed(r.note.value))
  }

  datatype LineOutcome = Skipped | Rejected(error: LineError) | Accepted(row: ImportRow)

  /**
   * The checks of a non-blank line, in order: type (upper-cased), amount,
   * category, date; the first that fails is the one reported.  An empty
   * note is stored as null.
   */
  function CheckCells(user: string, cells: seq<string>, cols: Columns, lineNo: nat): (o: LineOutcome)
    ensures !o.Skipped?
    ensures o.Rejected? ==> o.error.line == lineNo
    ensures o.Accepted? ==> ValidImportRow(user, o.row)
  {
    var kind := ToUpper(Trim(Cell(cells, cols.kind)));
    var amountText := Trim(Cell(cells, cols.amount));
    var category := Trim(Cell(cells, cols.category));
    var date := Trim(Cell(cells, cols.date));
    var note := if cols.note != -1 then Trim(Cell(cells, cols.note)) else "";
    var amount := StringToNumber(amountText);
    if !(kind == "INCOME" || kind == "EXPENSE") then Rejected(InvalidType(lineNo, kind))
    else if !(amount.Finite? && amount.value > 0.0) then Rejected(InvalidAmount(lineNo, amountText))
    else if category == "" then Rejected(MissingCategory(lineNo))
    else if !IsDateLayout(date) then Rejected(InvalidDate(lineNo, date))
    else Accepted(ImportRow(user, kind, amount.value, category, date, if note != "" then Some(note) else None))
  }

  /**
   * The outcome of every line, in the source's order of checks: the type
   * is refused first, the amount only when the type passes, then the
   * category, then the date; a line that passes all four is stored with the
   * upper-cased type, the parsed amount, the trimmed category and date, and
   * the trimmed note, absent when empty or when there is no note column.
   */
  lemma CheckOrder(user: string, cells: seq<string>, cols: Columns, lineNo: nat)
    ensures var k := ToUpper(Trim(Cell(cells, cols.kind)));
            var a := Trim(Cell(cells, cols.amount));
            var n := StringToNumber(a);
            var c := Trim(Cell(cells, cols.category));
            var d := Trim(Cell(cells, cols.date));
            var note := if cols.note != -1 then Trim(Cell(cells, cols.note)) else "";
            var typeOk := k == "INCOME" || k == "EXPENSE";
            var amountOk := n.Finite? && n.value > 0.0;
            var o := CheckCells(user, cells, cols, lineNo);
            && (o == Rejected(InvalidType(lineNo, k)) <==> !typeOk)
            && (o == Rejected(InvalidAmount(lineNo, a)) <==> typeOk && !amountOk)
            && (o == Rejected(MissingCategory(lineNo)) <==> typeOk && amountOk && c == "")
            && (o == Rejected(InvalidDate(lineNo, d)) <==> typeOk && amountOk && c != "" && !IsDateLayout(d))
            && (o.Accepted? <==> typeOk && amountOk && c != "" && IsDateLayout(d))
            && (o.Accepted? ==> o.row == ImportRow(user, k, n.value, c, d, if note != "" then Some(note) else None))
  {
  }

  /** A kept line: skipped when blank, otherwise checked cell by cell. */
  function CheckLine(user: string, raw: string, cols: Columns, lineNo: nat): (o: LineOutcome)
    ensures o.Skipped? <==> IsBlank(raw)
    ensures o.Rejected? ==> o.error.line == lineNo
    ensures o.Accepted? ==> ValidImportRow(user, o.row)
  {
    if IsBlank(raw) then Skipped else CheckCells(user, ParsedFields(raw), cols, lineNo)
  }

  /** The transaction the create endpoint would receive for a stored row. */
  function AsTransaction(r: ImportRow): NewTransaction {
    NewTransaction(r.kind, r.amount, r.category, r.date, r.note)
  }

  /**
   * A stored row within the create endpoint's length limits is one that
   * endpoint accepts unchanged.
   */
  lemma ImportedRowPassesSchema(user: string, r: ImportRow)
    requires ValidImportRow(user, r)
    requires |r.category| <= 50 && (r.note.Some? ==> |r.note.value| <= 200)
    ensures ParseCreate(CreateBodyOf(AsTransaction(r))) == Success(AsTransaction(r))
  {
    CreateRoundTrip(AsTransaction(r));
  }

  /** A four-cell line in header order that passes every rule gives the stored row. */
  lemma FourCellsAccepted(user: string, k: string, a: string, c: string, d: string, lineNo: nat,
                          kind: string, amount: real)
    requires ToUpper(Trim(k)) == kind && (kind == "INCOME" || kind == "EXPENSE")
    requires StringToNumber(Trim(a)) == Finite(amount) && amount > 0.0
    requires Trim(c) == c && c != ""
    requires Trim(d) == d && IsDateLayout(d)
    ensures CheckCells(user, [k, a, c, d], Columns(0, 1, 2, 3, -1), lineNo)
            == Accepted(ImportRow(user, kind, amount, c, d, None))
  {
    var cells := [k, a, c, d];
    assert Cell(cells, 0) == k && Cell(cells, 1) == a && Cell(cells, 2) == c && Cell(cells, 3) == d;
  }

  /**
   * The import has no length limits: a 51-character category is stored,
   * though the create endpoint refuses it.
   */
  lemma LongCategoryOnlyImported(cat: string)
    requires |cat| == 51 && forall i :: 0 <= i < |cat| ==> cat[i] == 'a'
    ensures CheckCells("u", ["EXPENSE", "5", cat, "2026-01-05"], Columns(0, 1, 2, 3, -1), 2).Accepted?
    ensures ParseCreate(CreateBody(Text("EXPENSE"), Text("5"), Text(cat), Text("2026-01-05"), Absent)).Failure?
  {
    TrimOfTrimmed(cat);
    SampleCells("EXPENSE", "5", "2026-01-05", 5);
    FourCellsAccepted("u", "EXPENSE", "5", cat, "2026-01-05", 2, "EXPENSE", 5.0);
  }

  /** The type is read without regard to case: "income" is INCOME. */
  lemma TypeCaseInsensitive()
    ensures CheckCells("u", ["income", "12", "Salary", "2026-01-01"], Columns(0, 1, 2, 3, -1), 2)
            == Accepted(ImportRow("u", "INCOME", 12.0, "Salary", "2026-01-01", None))
  {
    assert Trim("Salary") == "Salary" by { TrimOfTrimmed("Salary"); }
    SampleCells("income", "12", "2026-01-01", 12);
    FourCellsAccepted("u", "income", "12", "Salary", "2026-01-01", 2, "INCOME", 12.0);
  }

  /** The cell facts of the two sample lines above. */
  lemma SampleCells(kind: string, amount: string, date: string, n: nat)
    requires (kind == "income" && amount == "12" && date == "2026-01-01" && n == 12)
             || (kind == "EXPENSE" && amount == "5" && date == "2026-01-05" && n == 5)
    ensures ToUpper(Trim(kind)) == (if kind == "income" then "INCOME" else kind)
    ensures StringToNumber(Trim(amount)) == Finite(n as real)
    ensures Trim(date) == date && IsDateLayout(date)
  {
    SampleKind(kind);
    SampleAmount(amount, n);
    SampleDate(date);
  }

  lemma SampleKind(kind: string)
    requires kind == "income" || kind == "EXPENSE"
    ensures ToUpper(Trim(kind)) == (if kind == "income" then "INCOME" else kind)
  {
    TrimOfTrimmed(kind);
  }

  lemma SampleAmount(amount: string, n: nat)
    requires (amount == "12" && n == 12) || (amount == "5" && n == 5)
    ensures StringToNumber(Trim(amount)) == Finite(n as real)
  {
    TrimOfTrimmed(amount);
    assert amount == NatToString(n);
    NatRoundTrip(n);
  }

  lemma SampleDate(date: string)
    requires date == "2026-01-01" || date == "2026-01-05"
    ensures Trim(date) == date && IsDateLayout(date)
  {
    TrimOfTrimmed(date);
  }

  // ---------------------------------------------------------------------
  // Every data line

  /** The errors of the kept lines 1 .. n-1, in line order. */
  function ErrorsOf(user: string, lines: seq<string>, cols: Columns, n: nat): seq<LineError>
    requires 1 <= n <= |lines|
  {
    if n == 1 then []
    else
      var o := CheckLine(user, lines[n - 1], cols, n);
      ErrorsOf(user, lines, cols, n - 1) + (if o.Rejected? then [o.error] else [])
  }

  /** The rows of the kept lines 1 .. n-1, in line order. */
  function RowsOf(user: string, lines: seq<string>, cols: Columns, n: nat): seq<ImportRow>
    requires 1 <= n <= |lines|
  {
    if n == 1 then []
    else
      var o := CheckLine(user, lines[n - 1], cols, n);
      RowsOf(user, lines, cols, n - 1) + (if o.Accepted? then [o.row] else [])
  }

  /** The loop over the data lines: a blank line is skipped, any other is checked. */
  method ValidateRows(user: string, lines: seq<string>, cols: Columns) returns (errors: seq<LineError>, rows: seq<ImportRow>)
    requires |lines| >= 1
    ensures errors == ErrorsOf(user, lines, cols, |lines|)
    ensures rows == RowsOf(user, lines, cols, |lines|)
  {
    errors, rows := [], [];
    for i := 1 to |lines|
      invariant errors == ErrorsOf(user, lines, cols, i)
      invariant rows == RowsOf(user, lines, cols, i)
    {
      LineStep(user, lines, cols, i);
      var raw := lines[i];
      if IsBlank(raw) {
        continue;
      }
      var cells := ParseCsvLine(raw);
      var o := CheckCells(user, cells, cols, i + 1);
      if o.Rejected? {
        errors := errors + [o.error];
      } else {
        rows := rows + [o.row];
      }
    }
  }

  /** One more line adds its own outcome to the errors or the rows. */
  lemma LineStep(user: string, lines: seq<string>, cols: Columns, i: nat)
    requires 1 <= i < |lines|
    ensures var o := CheckLine(user, lines[i], cols, i + 1);
            && ErrorsOf(user, lines, cols, i + 1) == ErrorsOf(user, lines, cols, i) + (if o.Rejected? then [o.error] else [])
            && RowsOf(user, lines, cols, i + 1) == RowsOf(user, lines, cols, i) + (if o.Accepted? then [o.row] else [])
            && (IsBlank(lines[i]) ==> o.Skipped?)
            && (!IsBlank(lines[i]) ==> o == CheckCells(user, ParsedFields(lines[i]), cols, i + 1))
  {
  }

  /** The number of non-blank lines among the kept lines 1 .. n-1. */
  function NonBlankCount(lines: seq<string>, n: nat): nat
    requires 1 <= n <= |lines|
  {
    if n == 1 then 0 else NonBlankCount(lines, n - 1) + (if IsBlank(lines[n - 1]) then 0 else 1)
  }

  /** Every non-blank data line gives exactly one error or one row. */
  lemma {:induction false} EveryLineCounted(user: string, lines: seq<string>, cols: Columns, n: nat)
    requires 1 <= n <= |lines|
    ensures |ErrorsOf(user, lines, cols, n)| + |RowsOf(user, lines, cols, n)| == NonBlankCount(lines, n)
  {
    if n > 1 {
      EveryLineCounted(user, lines, cols, n - 1);
    }
  }

  /** Each error names a data line, the one whose check reported it. */
  lemma {:induction false} ErrorLines(user: string, lines: seq<string>, cols: Columns, n: nat)
    requires 1 <= n <= |lines|
    ensures forall j :: 0 <= j < |ErrorsOf(user, lines, cols, n)| ==>
              2 <= ErrorsOf(user, lines, cols, n)[j].line <= n && FoundOn(user, lines, cols, ErrorsOf(user, lines, cols, n)[j])
  {
    if n > 1 {
      ErrorLines(user, lines, cols, n - 1);
      var prev := ErrorsOf(user, lines, cols, n - 1);
      var o := CheckLine(user, lines[n - 1], cols, n);
      var errs := ErrorsOf(user, lines, cols, n);
      assert errs == prev + (if o.Rejected? then [o.error] else []);
      forall j | 0 <= j < |errs| ensures 2 <= errs[j].line <= n && FoundOn(user, lines, cols, errs[j]) {
        if j < |prev| {
          assert errs[j] == prev[j];
        } else {
          assert errs[j] == o.error && o.error.line == n;
        }
      }
    }
  }

  /** The errors come in strictly increasing line order. */
  lemma {:induction false} ErrorsOrdered(user: string, lines: seq<string>, cols: Columns, n: nat)
    requires 1 <= n <= |lines|
    ensures forall j, k :: 0 <= j < k < |ErrorsOf(user, lines, cols, n)| ==>
              ErrorsOf(user, lines, cols, n)[j].line < ErrorsOf(user, lines, cols, n)[k].line
  {
    if n > 1 {
      ErrorsOrdered(user, lines, cols, n - 1);
      ErrorLinesBelow(user, lines, cols, n - 1);
      var prev := ErrorsOf(user, lines, cols, n - 1);
      var o := CheckLine(user, lines[n - 1], cols, n);
      var errs := ErrorsOf(user, lines, cols, n);
      assert errs == prev + (if o.Rejected? then [o.error] else []);
      forall j, k | 0 <= j < k < |errs| ensures errs[j].line < errs[k].line {
        assert errs[j] == prev[j];
        if k < |prev| {
          assert errs[k] == prev[k];
        } else {
          assert errs[k] == o.error && o.error.line == n;
        }
      }
    }
  }

  lemma {:induction false} ErrorLinesBelow(user: string, lines: seq<string>, cols: Columns, n: nat)
    requires 1 <= n <= |lines|
    ensures forall j :: 0 <= j < |ErrorsOf(user, lines, cols, n)| ==> ErrorsOf(user, lines, cols, n)[j].line <= n
  {
    if n > 1 {
      ErrorLinesBelow(user, lines, cols, n - 1);
      var prev := ErrorsOf(user, lines, cols, n - 1);
      var o := CheckLine(user, lines[n - 1], cols, n);
      var errs := ErrorsOf(user, lines, cols, n);
      assert errs == prev + (if o.Rejected? then [o.error] else []);
      forall j | 0 <= j < |errs| ensures errs[j].line <= n {
        if j < |prev| {
          assert errs[j] == prev[j];
        }
      }
    }
  }

  /** The error `e` is what the check of its own line reports. */
  predicate FoundOn(user: string, lines: seq<string>, cols: Columns, e: LineError) {
    1 <= e.line <= |lines| && CheckLine(user, lines[e.line - 1], cols, e.line) == Rejected(e)
  }

  /** Every row to store satisfies the rules and belongs to the user. */
  lemma {:induction false} RowsValid(user: string, lines: seq<string>, cols: Columns, n: nat)
    requires 1 <= n <= |lines|
    ensures forall j :: 0 <= j < |RowsOf(user, lines, cols, n)| ==> ValidImportRow(user, RowsOf(user, lines, cols, n)[j])
  {
    if n > 1 {
      RowsValid(user, lines, cols, n - 1);
    }
  }

  /**
   * "No valid rows found" cannot happen: the last kept line is not blank,
   * so it gives an error or a row.
   */
  lemma NoValidRowsUnreachable(user: string, lines: seq<string>, cols: Columns)
    requires |lines| >= 2 && !IsBlank(lines[|lines| - 1])
    ensures ErrorsOf(user, lines, cols, |lines|) == [] ==> RowsOf(user, lines, cols, |lines|) != []
  {
  }

  /** The text of the first 25 errors: `errors.slice(0, 25)`. */
  function Details(errors: seq<LineError>): (d: seq<string>)
    ensures |d| <= 25 && |d| == (if |errors| < 25 then |errors| else 25)
    ensures forall j :: 0 <= j < |d| ==> d[j] == Message(errors[j])
  {
    var m := if |errors| < 25 then |errors| else 25;
    seq(m, j requires 0 <= j < m => Message(errors[j]))
  }

  // ---------------------------------------------------------------------
  // Inserting in chunks

  const ChunkSize: nat := 500

  function Min(a: int, b: int): int {
    if a < b then a else b
  }

  /** The number of chunks of `n` rows. */
  function ChunkCount(n: nat): (c: nat)
    ensures n == 0 <==> c == 0
    ensures c > 0 ==> ChunkSize * (c - 1) < n <= ChunkSize * c
  {
    (n + ChunkSize - 1) / ChunkSize
  }

  /** `rows.slice(500 * k, 500 * k + 500)`. */
  function Chunk<T>(rows: seq<T>, k: nat): (c: seq<T>)
    requires k < ChunkCount(|rows|)
    ensures 1 <= |c| <= ChunkSize
  {
    rows[ChunkSize * k..Min(ChunkSize * k + ChunkSize, |rows|)]
  }

  /** The chunks in insertion order. */
  function Chunks<T>(rows: seq<T>): (cs: seq<seq<T>>)
    ensures |cs| == ChunkCount(|rows|)
    ensures forall k :: 0 <= k < |cs| ==> cs[k] == Chunk(rows, k)
  {
    seq(ChunkCount(|rows|), k requires 0 <= k < ChunkCount(|rows|) => Chunk(rows, k))
  }

  function Flatten<T>(cs: seq<seq<T>>): seq<T> {
    if cs == [] then [] else Flatten(cs[..|cs| - 1]) + cs[|cs| - 1]
  }

  /** The first k chunks hold the first 500 k rows (all of them once k is the count). */
  lemma {:induction false} ChunksPrefix<T>(rows: seq<T>, k: nat)
    requires k <= ChunkCount(|rows|)
    ensures Flatten(Chunks(rows)[..k]) == rows[..Min(ChunkSize * k, |rows|)]
  {
    if k > 0 {
      ChunksPrefix(rows, k - 1);
      assert Chunks(rows)[..k][..k - 1] == Chunks(rows)[..k - 1];
      assert Min(ChunkSize * (k - 1), |rows|) == ChunkSize * (k - 1);
      assert rows[..Min(ChunkSize * k, |rows|)]
          == rows[..ChunkSize * (k - 1)] + rows[ChunkSize * (k - 1)..Min(ChunkSize * k, |rows|)];
    }
  }

  /** The chunks partition the rows: together, in order, they are exactly the rows. */
  lemma ChunksPartition<T>(rows: seq<T>)
    ensures Flatten(Chunks(rows)) == rows
  {
    ChunksPrefix(rows, ChunkCount(|rows|));
    assert Chunks(rows)[..ChunkCount(|rows|)] == Chunks(rows);
  }

  /** The storage reply to chunk `k`; a chunk without a recorded reply succeeds. */
  function ReplyAt(replies: seq<Option<string>>, k: nat): Option<string> {
    if k < |replies| then replies[k] else None
  }

  /** The first chunk from `k` on, below `n`, whose insert fails. */
  function FirstFailure(replies: seq<Option<string>>, k: nat, n: nat): (f: Option<nat>)
    ensures f.Some? ==> k <= f.value < n && ReplyAt(replies, f.value).Some?
    ensures forall j :: k <= j < n && (f.None? || j < f.value) ==> ReplyAt(replies, j).None?
    decreases n - k
  {
    if k >= n then None
    else if ReplyAt(replies, k).Some? then Some(k)
    else FirstFailure(replies, k + 1, n)
  }

  /**
   * The insert loop: chunk after chunk until one fails.  `sent` are the
   * chunks handed to storage, `inserted` the rows of those that succeeded;
   * the chunks before a failure stay stored.
   */
  method InsertChunks(rows: seq<ImportRow>, replies: seq<Option<string>>)
    returns (inserted: nat, error: Option<string>, sent: seq<seq<ImportRow>>)
    ensures var f := FirstFailure(replies, 0, ChunkCount(|rows|));
            && (f.None? ==> error.None? && inserted == |rows| && sent == Chunks(rows))
            && (f.Some? ==> error == ReplyAt(replies, f.value) && inserted == ChunkSize * f.value
                            && sent == Chunks(rows)[..f.value + 1])
  {
    inserted, error, sent := 0, None, [];
    var i := 0;
    var k := 0;
    ghost var n := ChunkCount(|rows|);
    while i < |rows|
      invariant k <= n && i == ChunkSize * k
      invariant inserted == Min(i, |rows|)
      invariant k < n <==> i < |rows|
      invariant sent == Chunks(rows)[..k]
      invariant FirstFailure(replies, k, n) == FirstFailure(replies, 0, n)
      decreases |rows| - i
    {
      var chunk := rows[i..Min(i + ChunkSize, |rows|)];
      assert chunk == Chunks(rows)[k];
      sent := sent + [chunk];
      assert sent == Chunks(rows)[..k + 1];
      var reply := ReplyAt(replies, k);
      if reply.Some? {
        error := reply;
        return;
      }
      inserted := inserted + |chunk|;
      i := i + ChunkSize;
      k := k + 1;
    }
    assert Chunks(rows)[..k] == Chunks(rows);
  }

  /** When chunk `f` fails, the rows of the chunks before it are stored all the same. */
  lemma PartialCommit(rows: seq<ImportRow>, f: nat)
    requires f < ChunkCount(|rows|)
    ensures Flatten(Chunks(rows)[..f]) == rows[..ChunkSize * f]
    ensures ChunkSize * f < |rows|
  {
    ChunksPrefix(rows, f);
  }

  // ---------------------------------------------------------------------
  // The handler

  datatype ImportOutcome =
    | MethodNotAllowed(allow: string)
    | Unauthorized
    | EmptyCsv
    | TooFewLines
    | MissingColumnsFound(details: seq<string>)
    | ValidationFailed(details: seq<string>)
    | NoValidRows
    | StorageFailed(message: string)
    | Inserted(count: nat)

  function Status(o: ImportOutcome): nat {
    match o
    case MethodNotAllowed(_) => 405
    case Unauthorized => 401
    case StorageFailed(_) => 500
    case Inserted(_) => 200
    case _ => 400
  }

  /** The kept lines of a posted text. */
  function KeptLines(csv: string): seq<string> {
    TrimmedLines(RawLines(csv))
  }

  /** The normalised header cells of the kept lines. */
  function HeaderOf(kept: seq<string>): seq<string>
    requires |kept| >= 1
  {
    HeaderCells(kept[0])
  }

  /** The errors of the data lines under a complete header. */
  function KeptErrors(user: string, kept: seq<string>): seq<LineError>
    requires |kept| >= 1 && MissingColumns(HeaderOf(kept)) == []
  {
    ErrorsOf(user, kept, ColumnsOf(HeaderOf(kept)), |kept|)
  }

  /** The rows of the data lines under a complete header. */
  function KeptRows(user: string, kept: seq<string>): seq<ImportRow>
    requires |kept| >= 1 && MissingColumns(HeaderOf(kept)) == []
  {
    RowsOf(user, kept, ColumnsOf(HeaderOf(kept)), |kept|)
  }

  /**
   * How the insert of `rows` ends: every chunk stored and all rows counted,
   * or the message of the first chunk that fails with the rows of the
   * chunks before it left stored.
   */
  predicate StoredAs(rows: seq<ImportRow>, replies: seq<Option<string>>, o: ImportOutcome, committed: nat) {
    var f := FirstFailure(replies, 0, ChunkCount(|rows|));
    && (f.None? ==> o == Inserted(|rows|) && committed == |rows|)
    && (f.Some? ==> o == StorageFailed(ReplyAt(replies, f.value).value) && committed == ChunkSize * f.value < |rows|)
  }

  /**
   * The outcome of a text with a header and at least one data line: the
   * missing columns, else the first 25 line errors, else the insert.
   * "No valid rows found" is never the answer.
   */
  predicate LinesOutcome(user: string, kept: seq<string>, replies: seq<Option<string>>, o: ImportOutcome, committed: nat)
    requires |kept| >= 2
  {
    if MissingColumns(HeaderOf(kept)) != [] then
      o == MissingColumnsFound([MissingMessage(MissingColumns(HeaderOf(kept)))]) && committed == 0
    else if KeptErrors(user, kept) != [] then
      o == ValidationFailed(Details(KeptErrors(user, kept))) && committed == 0
    else
      KeptRows(user, kept) != [] && StoredAs(KeptRows(user, kept), replies, o, committed)
  }

  /** The header, the data lines and the insert. */
  method ImportLines(user: string, lines: seq<string>, replies: seq<Option<string>>) returns (o: ImportOutcome, committed: nat)
    requires |lines| >= 2 && !IsBlank(lines[|lines| - 1])
    ensures LinesOutcome(user, lines, replies, o, committed)
    ensures o.MissingColumnsFound? || o.ValidationFailed? || o.Inserted? || o.StorageFailed?
  {
    var header := ParseCsvLine(lines[0]);
    var cells := seq(|header|, i requires 0 <= i < |header| => NormalizeHeader(header[i]));
    assert cells == HeaderOf(lines);
    var missing := MissingColumns(cells);
    if missing != [] {
      return MissingColumnsFound([MissingMessage(missing)]), 0;
    }
    var cols := ColumnsOf(cells);
    var errors, rows := ValidateRows(user, lines, cols);
    if errors != [] {
      return ValidationFailed(Details(errors)), 0;
    }
    NoValidRowsUnreachable(user, lines, cols);
    if rows == [] {
      o := NoValidRows;
      return;
    }
    var inserted, error, sent := InsertChunks(rows, replies);
    committed := inserted;
    if error.Some? {
      PartialCommit(rows, FirstFailure(replies, 0, ChunkCount(|rows|)).value);
      return StorageFailed(error.value), committed;
    }
    return Inserted(inserted), committed;
  }

  /**
   * The handler.  `csv` is `req.body.csv` when it is a string, `replies`
   * what storage answers to each chunk in turn.  `committed` is the number
   * of rows stored when it returns.
   */
  method Handle(verb: string, user: Option<string>, csv: Option<string>, replies: seq<Option<string>>)
    returns (o: ImportOutcome, committed: nat)
    ensures verb != "POST" ==> o == MethodNotAllowed("POST") && committed == 0
    ensures verb == "POST" && !SignedIn(user) ==> o == Unauthorized && committed == 0
    ensures o.EmptyCsv? <==> verb == "POST" && SignedIn(user) && IsBlank(csv.GetOr(""))
    ensures o.TooFewLines? <==> verb == "POST" && SignedIn(user) && !IsBlank(csv.GetOr("")) && |KeptLines(csv.GetOr(""))| < 2
    ensures o.EmptyCsv? || o.TooFewLines? ==> committed == 0
    ensures verb == "POST" && SignedIn(user) && !IsBlank(csv.GetOr("")) && |KeptLines(csv.GetOr(""))| >= 2 ==>
              LinesOutcome(user.value, KeptLines(csv.GetOr("")), replies, o, committed)
    ensures !o.NoValidRows?
  {
    if verb != "POST" {
      return MethodNotAllowed("POST"), 0;
    }
    if !SignedIn(user) {
      return Unauthorized, 0;
    }
    var text := csv.GetOr("");
    if IsBlank(text) {
      return EmptyCsv, 0;
    }
    var lines := DropBlankEdges(RawLines(text));
    if |lines| < 2 {
      return TooFewLines, 0;
    }
    o, committed := ImportLines(user.value, lines, replies);
  }
}
