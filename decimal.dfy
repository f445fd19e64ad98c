/**
 * ASCII decimal digits and the value of a digit string, most significant
 * digit first. `DecimalText` is the canonical rendering of a natural number;
 * the two round-trip lemmas show that it and `DigitsValue` are inverses.
 */
module Decimal {

  /** The ASCII digits `0`-`9`: the class `\d` of a JavaScript regular expression and the digits of a numeric literal. */
  predicate IsDigit(c: char) {
    '0' <= c <= '9'
  }

  predicate AllDigits(d: string) {
    forall i :: 0 <= i < |d| ==> IsDigit(d[i])
  }

  function DigitValue(c: char): (v: nat)
    requires IsDigit(c)
    ensures v < 10
  {
    c as int - '0' as int
  }

  function DigitChar(v: nat): (c: char)
    requires v < 10
    ensures IsDigit(c) && DigitValue(c) == v
  {
    ('0' as int + v) as char
  }

  /** The natural number a string of digits denotes. */
  function DigitsValue(d: string): nat
    requires AllDigits(d)
  {
    if d == [] then 0 else 10 * DigitsValue(d[..|d| - 1]) + DigitValue(d[|d| - 1])
  }

  /** The canonical decimal rendering of `n`, without leading zeros. */
  function DecimalText(n: nat): (t: string)
    ensures |t| >= 1 && AllDigits(t)
    ensures |t| > 1 ==> t[0] != '0'
  {
    if n < 10 then [DigitChar(n)] else DecimalText(n / 10) + [DigitChar(n % 10)]
  }

  lemma {:induction false} DecimalTextRoundTrip(n: nat)
    ensures DigitsValue(DecimalText(n)) == n
  {
    if n >= 10 {
      var t := DecimalText(n);
      assert t[..|t| - 1] == DecimalText(n / 10);
      DecimalTextRoundTrip(n / 10);
    }
  }

  /** A digit string that does not start with `0` denotes at least 10^(length - 1), so at least 1. */
  lemma {:induction false} LeadingDigitBound(d: string)
    requires |d| >= 1 && AllDigits(d) && d[0] != '0'
    ensures DigitsValue(d) >= 1
    ensures |d| >= 2 ==> DigitsValue(d) >= 10
  {
    if |d| >= 2 {
      var p := d[..|d| - 1];
      assert p[0] == d[0];
      LeadingDigitBound(p);
    }
  }

  lemma {:induction false} DigitsValueRoundTrip(d: string)
    requires |d| >= 1 && AllDigits(d)
    requires |d| > 1 ==> d[0] != '0'
    ensures DecimalText(DigitsValue(d)) == d
  {
    var n := DigitsValue(d);
    if |d| == 1 {
      assert d[..0] == [] && DigitsValue(d[..0]) == 0;
      assert n == DigitValue(d[0]);
      assert DigitChar(n) == d[0];
      assert d == [d[0]];
    } else {
      var p := d[..|d| - 1];
      assert p[0] == d[0];
      LeadingDigitBound(d);
      DigitsValueRoundTrip(p);
      assert n / 10 == DigitsValue(p) && n % 10 == DigitValue(d[|d| - 1]);
      assert d == p + [d[|d| - 1]];
    }
  }
}
