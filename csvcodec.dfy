/**
 * The CSV line codec: `parseCsvLine` of the import endpoint and `csvEscape`
 * of the export endpoint.  Quoting follows rules 5-7 of section 2 of
 * RFC 4180 (quoted fields, commas inside quotes, `""` for a quote), with
 * the endpoint's own deviations: every field is trimmed, and a quote met in
 * the middle of a field still toggles quote mode.
 */
module CsvCodec {
  import opened Wrappers
  import opened Text

  /**
   * The scanner of `parseCsvLine` run over the unread part `rest` of a
   * line, with the quote mode, the field being built and the fields
   * already closed.
   */
  function Scan(rest: string, inQuotes: bool, cur: string, out: seq<string>): seq<string>
    decreases |rest|
  {
    if rest == [] then out + [cur]
    else if rest[0] == '"' then
      if inQuotes && |rest| > 1 && rest[1] == '"' then Scan(rest[2..], inQuotes, cur + ['"'], out)
      else Scan(rest[1..], !inQuotes, cur, out)
    else if rest[0] == ',' && !inQuotes then Scan(rest[1..], inQuotes, "", out + [cur])
    else Scan(rest[1..], inQuotes, cur + [rest[0]], out)
  }

  /** Scanning only appends: the fields already closed stay, and one more is closed at the end. */
  lemma {:induction false} ScanExtends(rest: string, inQuotes: bool, cur: string, out: seq<string>)
    ensures var r := Scan(rest, inQuotes, cur, out); |r| >= |out| + 1 && r[..|out|] == out
    decreases |rest|
  {
    if rest == [] {
      assert (out + [cur])[..|out|] == out;
    } else if rest[0] == '"' {
      if inQuotes && |rest| > 1 && rest[1] == '"' {
        ScanExtends(rest[2..], inQuotes, cur + ['"'], out);
      } else {
        ScanExtends(rest[1..], !inQuotes, cur, out);
      }
    } else if rest[0] == ',' && !inQuotes {
      ScanExtends(rest[1..], inQuotes, "", out + [cur]);
      var r := Scan(rest, inQuotes, cur, out);
      assert r[..|out|] == r[..|out| + 1][..|out|];
    } else {
      ScanExtends(rest[1..], inQuotes, cur + [rest[0]], out);
    }
  }

  /** `fields.map((x) => x.trim())`. */
  function TrimAll(fields: seq<string>): (r: seq<string>)
    ensures |r| == |fields| && forall i :: 0 <= i < |r| ==> r[i] == Trim(fields[i])
  {
    seq(|fields|, i requires 0 <= i < |fields| => Trim(fields[i]))
  }

  /** The fields `parseCsvLine(line)` returns: at least one, each trimmed. */
  function ParsedFields(line: string): (r: seq<string>)
    ensures |r| >= 1
    ensures forall i :: 0 <= i < |r| ==> IsTrimmed(r[i])
  {
    ScanExtends(line, false, "", []);
    TrimAll(Scan(line, false, "", []))
  }

  method ParseCsvLine(line: string) returns (fields: seq<string>)
    ensures fields == ParsedFields(line)
  {
    var out: seq<string> := [];
    var cur := "";
    var inQuotes := false;
    var i := 0;
    while i < |line|
      invariant 0 <= i <= |line|
      invariant Scan(line[i..], inQuotes, cur, out) == Scan(line, false, "", [])
    {
      var ch := line[i];
      assert line[i..][1..] == line[i + 1..];
      if ch == '"' {
        if inQuotes && i + 1 < |line| && line[i + 1] == '"' {
          assert line[i..][2..] == line[i + 2..];
          cur := cur + ['"'];
          i := i + 1;
        } else {
          inQuotes := !inQuotes;
        }
      } else if ch == ',' && !inQuotes {
        out := out + [cur];
        cur := "";
      } else {
        cur := cur + [ch];
      }
      i := i + 1;
    }
    out := out + [cur];
    fields := TrimAll(out);
  }

  /** The characters that make `csvEscape` quote a value: `,`, `"`, LF, CR. */
  predicate NeedsQuotes(s: string) {
    ',' in s || '"' in s || '\n' in s || '\r' in s
  }

  /** `s.replace(/"/g, '""')`. */
  function DoubleQuotes(s: string): string {
    if s == [] then []
    else (if s[0] == '"' then "\"\"" else [s[0]]) + DoubleQuotes(s[1..])
  }

  /**
   * `csvEscape(value)`: absent values become the empty string; a value is
   * wrapped in quotes exactly when it holds a character that needs them,
   * and is otherwise returned unchanged.
   */
  function CsvEscape(value: Option<string>): (r: string)
    ensures value.None? ==> r == ""
    ensures value.Some? && !NeedsQuotes(value.value) ==> r == value.value
    ensures value.Some? ==> (NeedsQuotes(value.value) <==> |r| >= 2 && r[0] == '"' && r[|r| - 1] == '"')
  {
    var s := value.GetOr("");
    if NeedsQuotes(s) then "\"" + DoubleQuotes(s) + "\"" else s
  }

  /** `fields.map(csvEscape)`. */
  function EscapeAll(fields: seq<string>): (r: seq<string>)
    ensures |r| == |fields|
  {
    if fields == [] then [] else [CsvEscape(Some(fields[0]))] + EscapeAll(fields[1..])
  }

  lemma {:induction false} EscapeAllAt(fields: seq<string>, i: nat)
    requires i < |fields|
    ensures EscapeAll(fields)[i] == CsvEscape(Some(fields[i]))
  {
    if i > 0 {
      EscapeAllAt(fields[1..], i - 1);
    }
  }

  /** Values that need no quoting are written as they are. */
  lemma PlainEscapes(fields: seq<string>)
    requires forall i :: 0 <= i < |fields| ==> !NeedsQuotes(fields[i])
    ensures EscapeAll(fields) == fields
  {
    forall i | 0 <= i < |fields| ensures EscapeAll(fields)[i] == fields[i] {
      EscapeAllAt(fields, i);
    }
  }

  /** An unquoted value is copied into the current field. */
  lemma {:induction false} ScanPlain(f: string, rest: string, cur: string, out: seq<string>)
    requires ',' !in f && '"' !in f
    ensures Scan(f + rest, false, cur, out) == Scan(rest, false, cur + f, out)
  {
    if f != [] {
      assert (f + rest)[0] == f[0];
      assert (f + rest)[1..] == f[1..] + rest;
      ScanPlain(f[1..], rest, cur + [f[0]], out);
      assert cur + [f[0]] + f[1..] == cur + f;
    } else {
      assert f + rest == rest;
      assert cur + f == cur;
    }
  }

  /**
   * Inside quotes, a doubled value followed by the closing quote reads
   * back as the value and leaves quote mode, when the closing quote is
   * followed by a comma or the end of the line.
   */
  lemma {:induction false} ScanQuoted(f: string, rest: string, cur: string, out: seq<string>)
    requires rest == [] || rest[0] == ','
    ensures Scan(DoubleQuotes(f) + "\"" + rest, true, cur, out) == Scan(rest, false, cur + f, out)
  {
    if f == [] {
      assert DoubleQuotes(f) + "\"" + rest == ['"'] + rest;
      assert (['"'] + rest)[1..] == rest;
      assert cur + f == cur;
    } else {
      var tail := DoubleQuotes(f[1..]) + "\"" + rest;
      ScanQuoted(f[1..], rest, cur + [f[0]], out);
      assert cur + [f[0]] + f[1..] == cur + f;
      if f[0] == '"' {
        assert DoubleQuotes(f) + "\"" + rest == "\"\"" + tail;
        assert ("\"\"" + tail)[2..] == tail;
      } else {
        assert DoubleQuotes(f) + "\"" + rest == [f[0]] + tail;
        assert ([f[0]] + tail)[1..] == tail;
      }
    }
  }

  /** An escaped value reads back as the value itself. */
  lemma ScanEscaped(f: string, rest: string, cur: string, out: seq<string>)
    requires rest == [] || rest[0] == ','
    ensures Scan(CsvEscape(Some(f)) + rest, false, cur, out) == Scan(rest, false, cur + f, out)
  {
    if NeedsQuotes(f) {
      var tail := DoubleQuotes(f) + "\"" + rest;
      assert CsvEscape(Some(f)) + rest == "\"" + tail;
      assert ("\"" + tail)[1..] == tail;
      ScanQuoted(f, rest, cur, out);
    } else {
      ScanPlain(f, rest, cur, out);
    }
  }

  lemma JoinEscapedCons(fields: seq<string>)
    requires |fields| >= 2
    ensures Join(EscapeAll(fields), ",") == CsvEscape(Some(fields[0])) + ("," + Join(EscapeAll(fields[1..]), ","))
  {
    assert EscapeAll(fields)[1..] == EscapeAll(fields[1..]);
    assert EscapeAll(fields)[0] == CsvEscape(Some(fields[0]));
  }

  /** A comma outside quotes closes the current field. */
  lemma ScanComma(rest: string, cur: string, out: seq<string>)
    ensures Scan("," + rest, false, cur, out) == Scan(rest, false, "", out + [cur])
  {
    assert ("," + rest)[1..] == rest;
  }

  /** Any other character is appended to the current field. */
  lemma ScanChar(c: char, rest: string, inQuotes: bool, cur: string, out: seq<string>)
    requires c != '"' && (c != ',' || inQuotes)
    ensures Scan([c] + rest, inQuotes, cur, out) == Scan(rest, inQuotes, cur + [c], out)
  {
    assert ([c] + rest)[1..] == rest;
  }

  /** Scanning a comma-joined list of escaped values yields the values. */
  lemma {:induction false} ScanJoined(fields: seq<string>, out: seq<string>)
    requires |fields| >= 1
    ensures Scan(Join(EscapeAll(fields), ","), false, "", out) == out + fields
  {
    var f0 := fields[0];
    assert "" + f0 == f0;
    if |fields| == 1 {
      assert Join(EscapeAll(fields), ",") == CsvEscape(Some(f0)) + [];
      ScanEscaped(f0, [], "", out);
      assert fields == [f0];
    } else {
      var rest := Join(EscapeAll(fields[1..]), ",");
      calc {
        Scan(Join(EscapeAll(fields), ","), false, "", out);
        { JoinEscapedCons(fields); }
        Scan(CsvEscape(Some(f0)) + ("," + rest), false, "", out);
        { ScanEscaped(f0, "," + rest, "", out); }
        Scan("," + rest, false, f0, out);
        { ScanComma(rest, f0, out); }
        Scan(rest, false, "", out + [f0]);
        { ScanJoined(fields[1..], out + [f0]); }
        out + [f0] + fields[1..];
        { assert [f0] + fields[1..] == fields; }
        out + fields;
      }
    }
  }

  /**
   * Round trip: parsing the comma-join of the escaped values gives back the
   * values, provided there is at least one and none has whitespace at
   * either end (parsing trims every field).
   */
  lemma RoundTrip(fields: seq<string>)
    requires |fields| >= 1
    requires forall i :: 0 <= i < |fields| ==> IsTrimmed(fields[i])
    ensures ParsedFields(Join(EscapeAll(fields), ",")) == fields
  {
    ScanJoined(fields, []);
    assert [] + fields == fields;
    forall i | 0 <= i < |fields| ensures Trim(fields[i]) == fields[i] {
      TrimOfTrimmed(fields[i]);
    }
  }

  /**
   * Without any quote character a line is split at every comma, so it has
   * one field more than it has commas.
   */
  lemma {:induction false} ScanUnquoted(s: string, cur: string, out: seq<string>)
    requires '"' !in s
    ensures Scan(s, false, cur, out) == out + [cur + Split(s, ',')[0]] + Split(s, ',')[1..]
  {
    if s == [] {
      assert cur + "" == cur;
    } else {
      var rest := Split(s[1..], ',');
      if s[0] == ',' {
        assert s == "," + s[1..];
        ScanComma(s[1..], cur, out);
        ScanUnquoted(s[1..], "", out + [cur]);
        assert Split(s, ',') == [""] + rest;
        assert "" + rest[0] == rest[0];
        assert cur + "" == cur;
        assert out + [cur] + [rest[0]] + rest[1..] == out + [cur] + rest;
      } else {
        ScanUnquoted(s[1..], cur + [s[0]], out);
        assert Split(s, ',') == [[s[0]] + rest[0]] + rest[1..];
        assert cur + [s[0]] + rest[0] == cur + ([s[0]] + rest[0]);
      }
    }
  }

  lemma ParseUnquoted(line: string)
    requires '"' !in line
    ensures ParsedFields(line) == TrimAll(Split(line, ','))
  {
    ScanUnquoted(line, "", []);
    assert "" + Split(line, ',')[0] == Split(line, ',')[0];
    assert [] + [Split(line, ',')[0]] + Split(line, ',')[1..] == Split(line, ',');
  }

  /** The empty line is one empty field. */
  lemma ParseEmptyLine()
    ensures ParsedFields("") == [""]
  {
  }

  /** A comma inside quotes does not split: `a,"b,c",d`. */
  lemma ParseQuotedComma()
    ensures ParsedFields("a,\"b,c\",d") == ["a", "b,c", "d"]
  {
    QuotedCommaLine();
    RoundTrip(["a", "b,c", "d"]);
  }

  /** The line written for the values `a`, `b,c` and `d`. */
  lemma QuotedCommaLine()
    ensures Join(EscapeAll(["a", "b,c", "d"]), ",") == "a,\"b,c\",d"
  {
    assert CsvEscape(Some("b,c")) == "\"b,c\"" by {
      assert NeedsQuotes("b,c");
      assert DoubleQuotes("b,c") == "b,c";
    }
    EscapedLine("a", "b,c", "d");
    assert "a" + "," + "\"b,c\"" + "," + "d" == "a,\"b,c\",d";
  }

  /** A doubled quote inside quotes is one literal quote: `a,"b""c",d`. */
  lemma ParseDoubledQuote()
    ensures ParsedFields("a,\"b\"\"c\",d") == ["a", "b\"c", "d"]
  {
    DoubledQuoteLine();
    RoundTrip(["a", "b\"c", "d"]);
  }

  /** The line written for the values `a`, `b"c` and `d`. */
  lemma DoubledQuoteLine()
    ensures Join(EscapeAll(["a", "b\"c", "d"]), ",") == "a,\"b\"\"c\",d"
  {
    assert CsvEscape(Some("b\"c")) == "\"b\"\"c\"" by {
      assert NeedsQuotes("b\"c");
      assert DoubleQuotes("b\"c") == "b\"\"c";
    }
    EscapedLine("a", "b\"c", "d");
    assert "a" + "," + "\"b\"\"c\"" + "," + "d" == "a,\"b\"\"c\",d";
  }

  /** The line written for three values whose first and last need no quoting. */
  lemma EscapedLine(x: string, y: string, z: string)
    requires !NeedsQuotes(x) && !NeedsQuotes(z)
    ensures Join(EscapeAll([x, y, z]), ",") == x + "," + CsvEscape(Some(y)) + "," + z
  {
    var e := CsvEscape(Some(y));
    assert [x, y, z][1..] == [y, z];
    assert [y, z][1..] == [z];
    assert [z][1..] == [];
    assert EscapeAll([z]) == [z];
    assert EscapeAll([y, z]) == [e, z];
    assert EscapeAll([x, y, z]) == [x, e, z];
    assert [x, e, z][1..] == [e, z];
    assert [e, z][1..] == [z];
    assert Join([e, z], ",") == e + "," + z;
    assert x + "," + (e + "," + z) == x + "," + e + "," + z;
  }

  /** A quote in mid-field toggles quote mode and is dropped: `a"b,c"d` is one field. */
  lemma ParseMidFieldQuote()
    ensures ParsedFields("a\"b,c\"d") == ["ab,cd"]
  {
    calc {
      Scan("a\"b,c\"d", false, "", []);
      { ScanChar('a', "\"b,c\"d", false, "", []); assert ['a'] + "\"b,c\"d" == "a\"b,c\"d"; assert "" + ['a'] == "a"; }
      Scan("\"b,c\"d", false, "a", []);
      Scan("b,c\"d", true, "a", []);
      { ScanChar('b', ",c\"d", true, "a", []); assert ['b'] + ",c\"d" == "b,c\"d"; assert "a" + ['b'] == "ab"; }
      Scan(",c\"d", true, "ab", []);
      { ScanChar(',', "c\"d", true, "ab", []); assert [','] + "c\"d" == ",c\"d"; assert "ab" + [','] == "ab,"; }
      Scan("c\"d", true, "ab,", []);
      { ScanChar('c', "\"d", true, "ab,", []); assert ['c'] + "\"d" == "c\"d"; assert "ab," + ['c'] == "ab,c"; }
      Scan("\"d", true, "ab,c", []);
      Scan("d", false, "ab,c", []);
      { ScanChar('d', "", false, "ab,c", []); assert ['d'] + "" == "d"; assert "ab,c" + ['d'] == "ab,cd"; }
      Scan("", false, "ab,cd", []);
      ["ab,cd"];
    }
    assert IsTrimmed("ab,cd");
    TrimOfTrimmed("ab,cd");
  }
}
