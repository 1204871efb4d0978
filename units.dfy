/**
 * Feet-and-inches arithmetic of the permit checker: the form combines a feet
 * and an inches field into total inches, and the legal baseline is printed
 * back as feet and inches.
 */
module Units {

  /** Total inches of a feet-and-inches reading; a negative total reads as zero. */
  function ToInches(ft: int, inch: int): (r: nat)
    ensures r >= ft * 12 + inch
    ensures ft * 12 + inch >= 0 ==> r == ft * 12 + inch
    ensures ft * 12 + inch < 0 ==> r == 0
  {
    if ft * 12 + inch < 0 then 0 else ft * 12 + inch
  }

  /** Whole feet in `inches`, rounded toward negative infinity. */
  function FeetPart(inches: int): (ft: int)
    ensures ft * 12 <= inches < ft * 12 + 12
  {
    inches / 12
  }

  /**
   * The inches printed after the feet. The remainder keeps the sign of
   * `inches` (a truncating remainder), so a negative total prints a
   * non-positive inch count.
   */
  function InchPart(inches: int): (inch: int)
    ensures inches >= 0 ==> 0 <= inch < 12 && FeetPart(inches) * 12 + inch == inches
    ensures inches < 0 ==> -12 < inch <= 0 && (inches - inch) % 12 == 0
  {
    if inches >= 0 then inches % 12 else -((-inches) % 12)
  }

  predicate IsDigit(c: char) {
    '0' <= c <= '9'
  }

  function DigitValue(c: char): (d: nat)
    requires IsDigit(c)
    ensures d < 10
  {
    c as int - '0' as int
  }

  function DigitChar(d: nat): (c: char)
    requires d < 10
    ensures IsDigit(c) && DigitValue(c) == d
  {
    ('0' as int + d) as char
  }

  /** Decimal digits of `n`, most significant first, without leading zeros. */
  function NatDecimal(n: nat): (s: string)
    ensures |s| >= 1
    ensures forall i :: 0 <= i < |s| ==> IsDigit(s[i])
    ensures s[0] == '0' ==> n == 0
    decreases n
  {
    if n < 10 then [DigitChar(n)] else NatDecimal(n / 10) + [DigitChar(n % 10)]
  }

  /** The number a string of decimal digits denotes. */
  function ParseNat(s: string): nat
    requires forall i :: 0 <= i < |s| ==> IsDigit(s[i])
  {
    if |s| == 0 then 0 else 10 * ParseNat(s[..|s| - 1]) + DigitValue(s[|s| - 1])
  }

  lemma {:induction false} NatDecimalRoundTrip(n: nat)
    ensures ParseNat(NatDecimal(n)) == n
  {
    if n >= 10 {
      var s := NatDecimal(n);
      assert s[..|s| - 1] == NatDecimal(n / 10);
      NatDecimalRoundTrip(n / 10);
    }
  }

  /** How an integer is interpolated into a string: a minus sign, then its digits. */
  function DecimalString(n: int): (s: string)
    ensures |s| >= 1
    ensures forall i :: 0 <= i < |s| ==> IsDigit(s[i]) || s[i] == '-'
    ensures forall i :: 0 < i < |s| ==> IsDigit(s[i])
    ensures (s[0] == '-') <==> n < 0
    ensures n >= 0 ==> IsDigit(s[0])
    ensures n < 0 ==> |s| >= 2
  {
    if n < 0 then "-" + NatDecimal(-n) else NatDecimal(n)
  }

  /** The integer a minus sign and decimal digits denote. */
  function ParseDecimal(s: string): int
    requires forall i :: 0 <= i < |s| ==> IsDigit(s[i]) || (i == 0 && s[i] == '-')
  {
    if |s| > 0 && s[0] == '-' then -(ParseNat(s[1..]) as int) else ParseNat(s)
  }

  lemma DecimalRoundTrip(n: int)
    ensures ParseDecimal(DecimalString(n)) == n
  {
    if n < 0 {
      assert DecimalString(n)[1..] == NatDecimal(-n);
      NatDecimalRoundTrip(-n);
    } else {
      NatDecimalRoundTrip(n);
    }
  }

  /** Distinct integers print differently. */
  lemma DecimalStringInjective(a: int, b: int)
    requires DecimalString(a) == DecimalString(b)
    ensures a == b
  {
    DecimalRoundTrip(a);
    DecimalRoundTrip(b);
  }

  const FEET_MARK: char := '\U{2032}'
  const INCH_MARK: char := '\U{2033}'

  /** A feet-and-inches reading with inches below 12 is shown exactly as it was entered. */
  lemma FeetInchesRoundTrip(ft: int, inch: int)
    requires ft >= 0 && 0 <= inch < 12
    ensures FeetPart(ToInches(ft, inch)) == ft
    ensures InchPart(ToInches(ft, inch)) == inch
    ensures FmtInches(ToInches(ft, inch)) == DecimalString(ft) + [FEET_MARK, ' '] + DecimalString(inch) + [INCH_MARK]
  {
  }

  /** Splitting a non-negative total into feet and inches and recombining gives the total back. */
  lemma SplitRecombine(inches: nat)
    ensures ToInches(FeetPart(inches), InchPart(inches)) == inches
  {
  }

  /** Position of the first `mark` in `s`, or |s| when there is none. */
  function MarkIndex(s: string, mark: char): (k: nat)
    ensures k <= |s|
  {
    if |s| == 0 || s[0] == mark then 0 else 1 + MarkIndex(s[1..], mark)
  }

  lemma {:induction false} MarkIndexAfterPrefix(a: string, rest: string, mark: char)
    requires forall i :: 0 <= i < |a| ==> a[i] != mark
    ensures MarkIndex(a + [mark] + rest, mark) == |a|
  {
    if |a| > 0 {
      assert (a + [mark] + rest)[1..] == a[1..] + [mark] + rest;
      MarkIndexAfterPrefix(a[1..], rest, mark);
    }
  }

  /**
   * A length in inches shown as feet and inches, e.g. "8′ 6″": the printed
   * feet are exactly what comes before the first feet mark, and after it
   * come a space, the printed inches and the inch mark.
   */
  function FmtInches(inches: int): (r: string)
    ensures MarkIndex(r, FEET_MARK) == |DecimalString(FeetPart(inches))|
    ensures r[..MarkIndex(r, FEET_MARK)] == DecimalString(FeetPart(inches))
    ensures r[MarkIndex(r, FEET_MARK)..] == [FEET_MARK, ' '] + DecimalString(InchPart(inches)) + [INCH_MARK]
  {
    var feet := DecimalString(FeetPart(inches));
    var rest := [' '] + DecimalString(InchPart(inches)) + [INCH_MARK];
    MarkIndexAfterPrefix(feet, rest, FEET_MARK);
    assert feet + [FEET_MARK, ' '] + DecimalString(InchPart(inches)) + [INCH_MARK] == feet + [FEET_MARK] + rest;
    feet + [FEET_MARK, ' '] + DecimalString(InchPart(inches)) + [INCH_MARK]
  }

  /** Different non-negative lengths are shown differently. */
  lemma FmtInchesInjective(a: nat, b: nat)
    requires FmtInches(a) == FmtInches(b)
    ensures a == b
  {
    var s, k := FmtInches(a), MarkIndex(FmtInches(a), FEET_MARK);
    DecimalStringInjective(FeetPart(a), FeetPart(b));
    var ra := s[k..];
    assert DecimalString(InchPart(a)) == ra[2..|ra| - 1];
    assert DecimalString(InchPart(b)) == ra[2..|ra| - 1];
    DecimalStringInjective(InchPart(a), InchPart(b));
  }
}
