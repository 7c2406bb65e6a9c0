/**
 * `makeHslPalette(n)` of `src/lib/chartColors.ts`: `n` colours spread over
 * the hue circle, the hue of colour `i` being `360 * i / max(n, 1)` rounded
 * to the nearest integer with halves rounded up (`Math.round`).
 */
module ChartColors {
  import opened Text

  /**
   * `Math.round(num / den)`: the integer nearest to the quotient, a half
   * going up.
   */
  function RoundHalfUp(num: int, den: int): (r: int)
    requires den >= 1
    ensures 2 * den * r <= 2 * num + den < 2 * den * (r + 1)
  {
    (2 * num + den) / (2 * den)
  }

  /** The hue of colour `i` out of `n`. */
  function Hue(i: nat, n: int): (h: int)
  {
    RoundHalfUp(360 * i, if n >= 1 then n else 1)
  }

  /** The CSS colour for a hue. */
  function HslColor(hue: nat): (c: string)
    ensures |c| > |"hsl(" + " 70% 55%)"|
  {
    "hsl(" + NatToString(hue) + " 70% 55%)"
  }

  /**
   * `makeHslPalette(n)`: `Array.from({ length: n }, ...)`, so a length of
   * zero or less gives no colour at all and nothing is divided.
   */
  function MakeHslPalette(n: int): (r: seq<string>)
    ensures |r| == (if n >= 1 then n else 0)
  {
    seq(if n >= 1 then n else 0, i requires 0 <= i => HslColor(HueInRange(i, n)))
  }

  /** The hue of a colour that exists lies in [0, 360]. */
  function HueInRange(i: nat, n: int): (h: nat)
    ensures i < n ==> h == Hue(i, n)
  {
    if i < n then HueBounds(i, n); Hue(i, n) else 0
  }

  /** Every hue of the palette lies between 0 and 360 inclusive. */
  lemma HueBounds(i: nat, n: int)
    requires i < n
    ensures 0 <= Hue(i, n) <= 360
  {
    var h := Hue(i, n);
    assert 720 * i <= 720 * (n - 1);
    assert 2 * n * h < 2 * n * 361;
    CancelLess(2 * n, h, 361);
    assert 0 < 2 * n * (h + 1);
    CancelLess(2 * n, 0, h + 1);
  }

  /** A positive factor can be cancelled from a strict inequality. */
  lemma CancelLess(k: int, x: int, y: int)
    requires k > 0 && k * x < k * y
    ensures x < y
  {
  }

  /** Colour `i` of the palette is the colour of its hue, which reads back from the text. */
  lemma PaletteEntry(n: int, i: nat)
    requires i < n
    ensures var h := Hue(i, n);
            0 <= h <= 360
            && MakeHslPalette(n)[i] == "hsl(" + NatToString(h) + " 70% 55%)"
            && DigitsValue(NatToString(h)) == h
  {
    HueBounds(i, n);
    NatToStringValue(Hue(i, n));
  }

  /** The first colour has hue 0. */
  lemma FirstHueIsZero(n: int)
    ensures Hue(0, n) == 0
  {
  }

  /** Hues never decrease along the palette. */
  lemma HueMonotone(i: nat, j: nat, n: int)
    requires i <= j
    ensures Hue(i, n) <= Hue(j, n)
  {
    var d := if n >= 1 then n else 1;
    var hi, hj := Hue(i, n), Hue(j, n);
    assert 2 * d * hi <= 720 * i + d <= 720 * j + d < 2 * d * (hj + 1);
    CancelLess(2 * d, hi, hj + 1);
  }

  /**
   * With at most 360 colours consecutive hues are at least one degree
   * apart, so the hues are pairwise distinct.
   */
  lemma HueStrictWhenFew(i: nat, j: nat, n: int)
    requires i < j < n <= 360
    ensures Hue(i, n) < Hue(j, n)
  {
    var hi, hj := Hue(i, n), Hue(j, n);
    assert 720 * j >= 720 * i + 720 >= 720 * i + 2 * n;
    assert 2 * n * (hi + 1) <= 720 * i + 3 * n <= 720 * j + n < 2 * n * (hj + 1);
    CancelLess(2 * n, hi + 1, hj + 1);
  }

  /** With enough colours the last one reaches hue 360 and repeats hue 0 on the circle. */
  lemma LastHueCanBe360()
    ensures Hue(999, 1000) == 360
  {
  }
}
