/** Swift's decimal integer text conversions as the settings fields use them:
    `Int(text)` / `Int32(text)`, which accept an optional sign followed by one or more
    ASCII digits and fail on anything else or on a value outside the type's range,
    and the interpolation "\(n)", which renders an integer back to text. */
module Decimal {
  datatype Option<T> = None | Some(value: T)

  const INT64_MIN := -0x8000_0000_0000_0000
  const INT64_MAX := 0x7FFF_FFFF_FFFF_FFFF
  const INT32_MIN := -0x8000_0000
  const INT32_MAX := 0x7FFF_FFFF

  predicate IsDigit(c: char) {
    '0' <= c <= '9'
  }

  predicate AllDigits(s: string) {
    forall i :: 0 <= i < |s| ==> IsDigit(s[i])
  }

  function DigitValue(c: char): (d: nat)
    requires IsDigit(c)
    ensures d < 10
  {
    c as int - '0' as int
  }

  function DigitChar(d: nat): (c: char)
    requires d < 10
    ensures IsDigit(c) && DigitValue(c) == d
  {
    ('0' as int + d) as char
  }

  /** The value of a digit string, most significant digit first. */
  function ParseDigits(s: string): nat
    requires AllDigits(s)
  {
    if |s| == 0 then 0 else ParseDigits(s[..|s| - 1]) * 10 + DigitValue(s[|s| - 1])
  }

  /** Integer parsing bounded by the target type: None for an empty string, a bare
      sign, any character other than the leading sign and digits, or a value outside
      [lo, hi]. */
  function ParseInt(s: string, lo: int, hi: int): (r: Option<int>)
    ensures r.Some? ==> lo <= r.value <= hi
    ensures r.Some? ==> |s| > 0 && (IsDigit(s[0]) || s[0] == '-' || s[0] == '+')
  {
    var negative := |s| > 0 && s[0] == '-';
    var digits := if |s| > 0 && (s[0] == '-' || s[0] == '+') then s[1..] else s;
    if |digits| == 0 || !AllDigits(digits) then None
    else
      var magnitude: int := ParseDigits(digits);
      var v: int := if negative then -magnitude else magnitude;
      if lo <= v <= hi then Some(v) else None
  }

  /** Decimal digits of a natural number, without leading zeros. */
  function ShowNat(n: nat): string
  {
    if n < 10 then [DigitChar(n)] else ShowNat(n / 10) + [DigitChar(n % 10)]
  }

  /** "\(n)": a minus sign for negative values, then the digits of the magnitude. */
  function Show(n: int): string
  {
    if n < 0 then "-" + ShowNat(-n) else ShowNat(n)
  }

  /** The digits of n are a non-empty digit string with no leading zero that parses
      back to n. */
  lemma {:induction false} ShowNatParses(n: nat)
    ensures |ShowNat(n)| >= 1 && AllDigits(ShowNat(n)) && ParseDigits(ShowNat(n)) == n
    ensures |ShowNat(n)| > 1 ==> ShowNat(n)[0] != '0'
  {
    if n >= 10 {
      ShowNatParses(n / 10);
      var s := ShowNat(n);
      assert s[..|s| - 1] == ShowNat(n / 10);
      assert s[0] == ShowNat(n / 10)[0];
    }
  }

  /** Parsing the rendering of an in-range integer gives that integer back. */
  lemma ParseShow(n: int, lo: int, hi: int)
    requires lo <= n <= hi
    ensures ParseInt(Show(n), lo, hi) == Some(n)
  {
    ShowNatParses(if n < 0 then -n else n);
    if n < 0 {
      assert Show(n)[1..] == ShowNat(-n);
    }
  }

  /** Leading zeros do not change the value of a digit string. */
  lemma {:induction false} LeadingZeroIsIgnored(s: string)
    requires AllDigits(s)
    ensures AllDigits("0" + s) && ParseDigits("0" + s) == ParseDigits(s)
  {
    var z := "0" + s;
    if |s| > 0 {
      assert z[..|z| - 1] == "0" + s[..|s| - 1];
      LeadingZeroIsIgnored(s[..|s| - 1]);
    } else {
      assert z == "0";
    }
  }

  /** A plus sign is accepted and changes nothing; "-0" is zero. */
  lemma SignsOfShownValues(n: nat, lo: int, hi: int)
    requires lo <= n <= hi
    ensures ParseInt("+" + Show(n), lo, hi) == Some(n)
    ensures n == 0 ==> ParseInt("-" + Show(n), lo, hi) == Some(0)
  {
    ShowNatParses(n);
    assert ("+" + Show(n))[1..] == Show(n);
    assert ("-" + Show(n))[1..] == Show(n);
  }
}
