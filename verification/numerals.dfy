/**
 * Numbers as the parameter file writes them: JavaScript's default number-to-text
 * conversion (template-literal interpolation), `Math.round` and `toFixed(2)`,
 * together with the parsers a downstream reader uses to read the values back.
 *
 * Configuration numbers are exact decimal numerals: each one is typed into a
 * number input as decimal text and read with `Number(...)`.
 */
module Numerals {
  import opened Wrappers
  import Text

  function Pow10(n: nat): (r: nat)
    ensures r >= 1
  {
    if n == 0 then 1 else 10 * Pow10(n - 1)
  }

  // ---------------------------------------------------------------- digits

  predicate IsDigit(c: char) {
    '0' <= c <= '9'
  }

  predicate AllDigits(s: string) {
    forall i :: 0 <= i < |s| ==> IsDigit(s[i])
  }

  function DigitValue(c: char): (d: nat)
    requires IsDigit(c)
    ensures d < 10
  {
    c as int - '0' as int
  }

  function DigitChar(d: nat): (c: char)
    requires d < 10
    ensures IsDigit(c) && DigitValue(c) == d
  {
    ('0' as int + d) as char
  }

  /** Decimal digits of `n`, most significant first, without leading zeros. */
  function NatToString(n: nat): (s: string)
    ensures 1 <= |s| && AllDigits(s)
    ensures |s| > 1 ==> s[0] != '0'
  {
    if n < 10 then [DigitChar(n)] else NatToString(n / 10) + [DigitChar(n % 10)]
  }

  /** The number a string of digits denotes (leading zeros allowed). */
  function DigitsValue(s: string): (n: nat)
    requires AllDigits(s)
    ensures n < Pow10(|s|)
  {
    if s == [] then 0
    else
      var k := DigitsValue(s[..|s| - 1]);
      var d := DigitValue(s[|s| - 1]);
      assert k <= Pow10(|s| - 1) - 1;
      assert k * 10 <= Pow10(|s|) - 10;
      k * 10 + d
  }

  /** A natural number written as a non-empty run of digits. */
  function ParseNat(s: string): (r: Option<nat>)
    ensures r.Some? <==> 1 <= |s| && AllDigits(s)
  {
    if 1 <= |s| && AllDigits(s) then Some(DigitsValue(s)) else None
  }

  lemma {:induction false} NatToStringValue(n: nat)
    ensures DigitsValue(NatToString(n)) == n
  {
    if n >= 10 {
      var s := NatToString(n);
      assert s[..|s| - 1] == NatToString(n / 10);
      NatToStringValue(n / 10);
    }
  }

  /** Reading back the digits of `n` gives `n`. */
  lemma NatRoundTrip(n: nat)
    ensures ParseNat(NatToString(n)) == Some(n)
  {
    NatToStringValue(n);
  }

  /** A number below 10^p needs at most p digits. */
  lemma {:induction false} NatToStringLength(n: nat, p: nat)
    requires 1 <= p && n < Pow10(p)
    ensures |NatToString(n)| <= p
  {
    if n >= 10 {
      assert p >= 2;
      assert n / 10 < Pow10(p - 1);
      NatToStringLength(n / 10, p - 1);
    }
  }

  function Zeros(k: nat): (z: string)
    ensures |z| == k && AllDigits(z)
    ensures forall i :: 0 <= i < k ==> z[i] == '0'
  {
    if k == 0 then [] else Zeros(k - 1) + ['0']
  }

  /** `s` left-padded with '0' to width `w` (unchanged when already that wide). */
  function PadLeft(s: string, w: nat): (r: string)
    ensures |r| == if |s| < w then w else |s|
    ensures AllDigits(s) ==> AllDigits(r)
  {
    if |s| < w then Zeros(w - |s|) + s else s
  }

  lemma {:induction false} ZerosValue(k: nat)
    ensures DigitsValue(Zeros(k)) == 0
  {
    if k > 0 {
      assert Zeros(k)[..k - 1] == Zeros(k - 1);
      ZerosValue(k - 1);
    }
  }

  /** Leading zeros do not change the value of a digit string. */
  lemma {:induction false} LeadingZerosValue(k: nat, s: string)
    requires AllDigits(s)
    ensures DigitsValue(Zeros(k) + s) == DigitsValue(s)
    decreases |s|
  {
    var t := Zeros(k) + s;
    if s == [] {
      assert t == Zeros(k);
      ZerosValue(k);
    } else {
      assert t[..|t| - 1] == Zeros(k) + s[..|s| - 1];
      assert t[|t| - 1] == s[|s| - 1];
      LeadingZerosValue(k, s[..|s| - 1]);
    }
  }

  /** A number below 10^p, written with exactly p digits, reads back as itself. */
  lemma PaddedRoundTrip(m: nat, p: nat)
    requires 1 <= p && m < Pow10(p)
    ensures |PadLeft(NatToString(m), p)| == p
    ensures ParseNat(PadLeft(NatToString(m), p)) == Some(m)
  {
    var s := NatToString(m);
    NatToStringLength(m, p);
    NatToStringValue(m);
    if |s| < p {
      LeadingZerosValue(p - |s|, s);
    }
  }

  // ---------------------------------------------------------------- integers

  /** JavaScript's text for an integer-valued number (below 10^21 in magnitude). */
  function IntToString(i: int): (s: string)
    ensures 1 <= |s|
    ensures forall k :: 0 <= k < |s| ==> IsDigit(s[k]) || s[k] == '-'
  {
    if i < 0 then "-" + NatToString(-i) else NatToString(i)
  }

  /** An optionally '-'-signed run of digits. */
  function ParseInt(s: string): (r: Option<int>)
    ensures r.Some? ==> 1 <= |s|
  {
    if 1 <= |s| && s[0] == '-' then
      var n :- ParseNat(s[1..]);
      Some(-(n as int))
    else
      var n :- ParseNat(s);
      Some(n as int)
  }

  lemma SignedRoundTrip(n: nat)
    ensures ParseInt("-" + NatToString(n)) == Some(-(n as int))
  {
    assert ("-" + NatToString(n))[1..] == NatToString(n);
    NatRoundTrip(n);
  }

  lemma UnsignedRoundTrip(n: nat)
    ensures ParseInt(NatToString(n)) == Some(n as int)
  {
    NatRoundTrip(n);
    assert IsDigit(NatToString(n)[0]);
  }

  /** The text of an integer reads back as that integer. */
  lemma IntRoundTrip(i: int)
    ensures ParseInt(IntToString(i)) == Some(i)
  {
    if i < 0 {
      SignedRoundTrip(-i);
    } else {
      UnsignedRoundTrip(i);
    }
  }

  /** `Math.round`: the nearest integer, ties going up (towards +infinity). */
  function Round(x: real): (r: int)
    ensures x - 0.5 < r as real <= x + 0.5
  {
    (x + 0.5).Floor
  }

  /** Rounding half away from zero, the rule a currency amount is usually rounded by. */
  function RoundHalfAwayFromZero(x: real): int {
    if x >= 0.0 then (x + 0.5).Floor else -((-x + 0.5).Floor)
  }

  /** `Math.round` and rounding half away from zero agree on every non-negative number... */
  lemma RoundNonNegative(x: real)
    requires x >= 0.0
    ensures Round(x) == RoundHalfAwayFromZero(x)
    ensures Round(x) >= 0
  {
  }

  /** ...but not on a negative tie: `Math.round(-2.5)` is -2, not -3. */
  lemma RoundNegativeTie()
    ensures Round(-2.5) == -2
    ensures RoundHalfAwayFromZero(-2.5) == -3
  {
    assert (-2.5 + 0.5).Floor == -2;
    assert (2.5 + 0.5).Floor == 3;
  }

  // ---------------------------------------------------------------- decimals

  /** The exact decimal numeral units / 10^places. */
  datatype Decimal = Decimal(units: int, places: nat) {

    function Value(): real {
      Shift(units as real, places)
    }

    /** No redundant trailing zero after the decimal point. */
    predicate IsCanonical() {
      places == 0 || units % 10 != 0
    }
  }

  function Abs(i: int): nat {
    if i < 0 then -i else i
  }

  /** x / 10^p, one division by ten at a time. */
  function Shift(x: real, p: nat): real {
    if p == 0 then x else Shift(x, p - 1) / 10.0
  }

  lemma {:induction false} ShiftScales(x: real, p: nat)
    ensures Shift(10.0 * x, p) == 10.0 * Shift(x, p)
  {
    if p > 0 {
      ShiftScales(x, p - 1);
    }
  }

  lemma ScaleValue(u: int, p: nat)
    ensures Decimal(u * 10, p + 1).Value() == Decimal(u, p).Value()
  {
    assert (u * 10) as real == 10.0 * u as real;
    ShiftScales(u as real, p);
  }

  /** Drop trailing zeros after the decimal point; the value is unchanged. */
  function Normalize(d: Decimal): (c: Decimal)
    ensures c.IsCanonical()
    ensures c.Value() == d.Value()
    ensures c.places <= d.places
    decreases d.places
  {
    if d.places > 0 && d.units % 10 == 0 then
      ScaleValue(d.units / 10, d.places - 1);
      Normalize(Decimal(d.units / 10, d.places - 1))
    else d
  }

  /** Digits of `mag / 10^places`, then (when places > 0) '.' and exactly `places` fraction digits. */
  function FixedPoint(mag: nat, places: nat): (s: string)
    ensures 1 <= |s| && IsDigit(s[0])
    ensures forall k :: 0 <= k < |s| ==> IsDigit(s[k]) || s[k] == '.'
  {
    if places == 0 then NatToString(mag)
    else
      var q := Pow10(places);
      DivModSplit(mag, q);
      var whole := NatToString(mag / q);
      var frac := PadLeft(NatToString(mag % q), places);
      assert AllDigits(whole) && AllDigits(frac);
      var s := whole + "." + frac;
      assert forall k :: 0 <= k < |whole| ==> s[k] == whole[k];
      assert forall k :: |whole| < k < |s| ==> s[k] == frac[k - |whole| - 1];
      s
  }

  /**
   * JavaScript's text for a number given by a decimal numeral: the shortest
   * decimal form, '-' for negatives, no trailing fraction zeros, no '.' for integers.
   */
  function FormatDecimal(d: Decimal): (s: string)
    ensures 1 <= |s|
    ensures forall k :: 0 <= k < |s| ==> IsDigit(s[k]) || s[k] == '.' || s[k] == '-'
  {
    var c := Normalize(d);
    var body := FixedPoint(Abs(c.units), c.places);
    if c.units < 0 then "-" + body else body
  }

  /** The numeral whose integer part is `whole` and whose `places` fraction digits denote `frac`. */
  function Join(whole: nat, frac: nat, places: nat): Decimal {
    Decimal(whole * Pow10(places) + frac, places)
  }

  /** Non-negative decimal text: digits, optionally followed by '.' and more digits. */
  function ParseUnsignedDecimal(s: string): (r: Option<Decimal>)
    ensures r.Some? ==> r.value.units >= 0
  {
    match Text.IndexOf(s, '.')
    case None =>
      var n :- ParseNat(s);
      Some(Decimal(n, 0))
    case Some(i) =>
      var whole :- ParseNat(s[..i]);
      var frac :- ParseNat(s[i + 1..]);
      Some(Join(whole, frac, |s| - i - 1))
  }

  /** Optionally '-'-signed decimal text; the numeral keeps as many places as the text has. */
  function ParseDecimal(s: string): (r: Option<Decimal>)
  {
    if 1 <= |s| && s[0] == '-' then
      var d :- ParseUnsignedDecimal(s[1..]);
      Some(Decimal(-d.units, d.places))
    else ParseUnsignedDecimal(s)
  }

  /** Digits, '.', digits reads as the numeral with as many places as there are fraction digits. */
  lemma ParsePointed(a: string, b: string)
    requires 1 <= |a| && AllDigits(a) && 1 <= |b| && AllDigits(b)
    ensures ParseUnsignedDecimal(a + ['.'] + b)
         == Some(Join(DigitsValue(a), DigitsValue(b), |b|))
  {
    var s := a + ['.'] + b;
    assert '.' !in a by {
      forall k | 0 <= k < |a| ensures a[k] != '.' {
        assert IsDigit(a[k]);
      }
    }
    Text.IndexOfAfterPrefix(a, '.', b);
    assert Text.IndexOf(s, '.') == Some(|a|);
    assert s[..|a|] == a;
    assert s[|a| + 1..] == b;
    assert ParseNat(s[..|a|]) == Some(DigitsValue(a));
    assert ParseNat(s[|a| + 1..]) == Some(DigitsValue(b));
    assert |s| - |a| - 1 == |b|;
  }

  lemma JoinDivMod(mag: nat, places: nat, whole: nat, frac: nat)
    requires whole == mag / Pow10(places) && frac == mag % Pow10(places)
    ensures Join(whole, frac, places) == Decimal(mag, places)
  {
    DivModSplit(mag, Pow10(places));
  }

  lemma DivModSplit(m: nat, q: nat)
    requires q > 0
    ensures 0 <= m / q && 0 <= m % q
    ensures (m / q) * q + m % q == m
  {
  }

  lemma FixedPointRoundTrip(mag: nat, places: nat)
    ensures ParseUnsignedDecimal(FixedPoint(mag, places)) == Some(Decimal(mag, places))
  {
    var s := FixedPoint(mag, places);
    if places == 0 {
      assert '.' !in s by {
        forall k | 0 <= k < |s| ensures s[k] != '.' {
          assert IsDigit(s[k]);
        }
      }
      NatRoundTrip(mag);
    } else {
      var q := Pow10(places);
      var a := NatToString(mag / q);
      var b := PadLeft(NatToString(mag % q), places);
      NatToStringValue(mag / q);
      PaddedRoundTrip(mag % q, places);
      assert s == a + ['.'] + b;
      ParsePointed(a, b);
      JoinDivMod(mag, places, mag / q, mag % q);
    }
  }

  /** Reading back the printed text of a numeral gives its canonical form, so the same value. */
  lemma DecimalRoundTrip(d: Decimal)
    ensures ParseDecimal(FormatDecimal(d)) == Some(Normalize(d))
    ensures ParseDecimal(FormatDecimal(d)).value.Value() == d.Value()
  {
    var c := Normalize(d);
    var body := FixedPoint(Abs(c.units), c.places);
    FixedPointRoundTrip(Abs(c.units), c.places);
    if c.units < 0 {
      assert ("-" + body)[1..] == body;
    } else {
      assert FormatDecimal(d) == body;
    }
  }

  /** |x| in hundredths, rounded to the nearest with ties going up. */
  function Hundredths(m: real): (n: nat)
    requires m >= 0.0
    ensures -0.005 <= n as real / 100.0 - m <= 0.005
  {
    (m * 100.0 + 0.5).Floor
  }

  /**
   * `x.toFixed(2)`: |x| rounded to hundredths with ties going away from zero,
   * written with exactly two fraction digits, and '-' in front when x < 0.
   */
  function ToFixed2(x: real): (s: string)
    ensures 4 <= |s|
    ensures forall k :: 0 <= k < |s| ==> IsDigit(s[k]) || s[k] == '.' || s[k] == '-'
  {
    var body := FixedPoint(Hundredths(if x < 0.0 then -x else x), 2);
    if x < 0.0 then "-" + body else body
  }

  lemma HundredthsValue(u: int)
    ensures Decimal(u, 2).Value() == u as real / 100.0
  {
    assert Shift(u as real, 1) == u as real / 10.0;
  }

  /** The hundredths `toFixed(2)` writes, with x's sign. */
  function FixedUnits(x: real): int {
    var n := Hundredths(if x < 0.0 then -x else x);
    if x < 0.0 then -(n as int) else n
  }

  lemma ToFixed2Parses(x: real)
    ensures ParseDecimal(ToFixed2(x)) == Some(Decimal(FixedUnits(x), 2))
  {
    var n := Hundredths(if x < 0.0 then -x else x);
    var body := FixedPoint(n, 2);
    FixedPointRoundTrip(n, 2);
    if x < 0.0 {
      assert ("-" + body)[1..] == body;
    }
  }

  lemma FixedUnitsClose(x: real)
    ensures -0.005 <= Decimal(FixedUnits(x), 2).Value() - x <= 0.005
  {
    HundredthsValue(FixedUnits(x));
  }

  /** The text `toFixed(2)` writes reads back as a two-place numeral within half a hundredth of x. */
  lemma ToFixed2RoundTrip(x: real)
    ensures ParseDecimal(ToFixed2(x)).Some?
    ensures ParseDecimal(ToFixed2(x)).value.places == 2
    ensures -0.005 <= ParseDecimal(ToFixed2(x)).value.Value() - x <= 0.005
  {
    ToFixed2Parses(x);
    FixedUnitsClose(x);
  }
}
