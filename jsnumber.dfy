/**
 * JavaScript numbers as the ledger sees them: a finite value or one of the
 * three non-finite values, and `Number(text)` for decimal text.  Values are
 * exact reals; IEEE-754 rounding is not modelled.
 */
module JsNumber {
  import opened Wrappers
  import opened Text

  datatype Number = Finite(value: real) | NaN | PosInfinity | NegInfinity

  function Pow10(k: nat): (r: nat)
    ensures r >= 1
  {
    if k == 0 then 1 else 10 * Pow10(k - 1)
  }

  /** The number of digits at the start of `s`. */
  function DigitRun(s: string): (k: nat)
    ensures k <= |s| && AllDigits(s[..k])
    ensures k < |s| ==> !IsDigit(s[k])
  {
    if s != [] && IsDigit(s[0]) then
      var k := 1 + DigitRun(s[1..]);
      assert s[..k] == [s[0]] + s[1..][..k - 1];
      k
    else 0
  }

  /**
   * An unsigned decimal literal: digits, optionally followed by `.` and
   * more digits, with at least one digit in all ("12", "12.", ".5", "25.50").
   */
  function DecimalValue(b: string): (r: Option<real>)
    ensures r.Some? ==> r.value >= 0.0
    ensures b != [] && AllDigits(b) ==> r == Some(DigitsValue(b) as real)
    ensures r.Some? ==> b != [] && (IsDigit(b[0]) || b[0] == '.')
  {
    var k := DigitRun(b);
    if k == |b| then
      assert b[..k] == b;
      if k > 0 then Some(DigitsValue(b) as real) else None
    else if b[k] == '.' && AllDigits(b[k + 1..]) && (k > 0 || k + 1 < |b|) then
      Some(DigitsValue(b[..k]) as real + DigitsValue(b[k + 1..]) as real / Pow10(|b| - k - 1) as real)
    else None
  }

  /**
   * `Number(s)` for a string: surrounding whitespace is ignored, blank text
   * is 0, an optional sign may precede `Infinity` or a decimal literal, and
   * anything else is NaN.
   */
  function StringToNumber(s: string): (r: Number)
    ensures IsBlank(s) ==> r == Finite(0.0)
    ensures !IsBlank(s) && AllDigits(Trim(s)) ==> r == Finite(DigitsValue(Trim(s)) as real)
    ensures r.Finite? && r.value < 0.0 ==> Trim(s)[0] == '-'
    ensures r.Finite? && !IsBlank(s) ==> IsDigit(Trim(s)[0]) || Trim(s)[0] in "+-."
  {
    var t := Trim(s);
    if t == [] then Finite(0.0)
    else
      var neg := t[0] == '-';
      var body := if t[0] == '-' || t[0] == '+' then t[1..] else t;
      if body == "Infinity" then (if neg then NegInfinity else PosInfinity)
      else
        match DecimalValue(body)
        case Some(v) => Finite(if neg then -v else v)
        case None => NaN
  }

  /** Text that is not a number, such as the test fixture's "not-a-number", is NaN. */
  lemma NotANumberIsNaN()
    ensures StringToNumber("not-a-number") == NaN
  {
    assert IsTrimmed("not-a-number");
    TrimOfTrimmed("not-a-number");
    assert DigitRun("not-a-number") == 0;
  }

  /** `Number(String(n)) === n` for a non-negative integer. */
  lemma NatRoundTrip(n: nat)
    ensures StringToNumber(NatToString(n)) == Finite(n as real)
  {
    var s := NatToString(n);
    assert IsTrimmed(s);
    TrimOfTrimmed(s);
    assert !IsBlank(s);
    NatToStringValue(n);
  }
}
