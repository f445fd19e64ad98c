/**
 * JavaScript's global `parseFloat`, as the quantity check of `validarDados`
 * and the record builder of `registrarPlantacao` use it.
 *
 * `parseFloat` drops leading white space, then reads the longest prefix that
 * is a decimal literal (optional sign; `Infinity`, or digits with an optional
 * fraction and exponent) and ignores whatever follows, so `"10kg"` reads as
 * 10. When no such prefix exists the result is NaN, written `None` here.
 * Values are exact reals: IEEE-754 rounding is not modelled.
 */
module JsNumber {
  import opened Wrappers
  import opened Decimal

  /** A number `parseFloat` can return other than NaN. */
  datatype Num = Finite(value: real) | PosInfinity | NegInfinity

  /** `x > 0` for a JavaScript number `x` (false for NaN, -0 and -Infinity). */
  predicate IsPositive(n: Num) {
    match n
    case Finite(v) => v > 0.0
    case PosInfinity => true
    case NegInfinity => false
  }

  /** Unary minus on a number. */
  function Negate(n: Num): Num {
    match n
    case Finite(v) => Finite(-v)
    case PosInfinity => NegInfinity
    case NegInfinity => PosInfinity
  }

  /** StrWhiteSpaceChar of ECMA-262: the WhiteSpace and LineTerminator code points. */
  predicate IsStrWhiteSpace(c: char) {
    c == '\t' || c == '\n' || c == '\U{000B}' || c == '\U{000C}' || c == '\r' || c == ' '
    || c == '\U{00A0}' || c == '\U{1680}' || ('\U{2000}' <= c <= '\U{200A}')
    || c == '\U{2028}' || c == '\U{2029}' || c == '\U{202F}' || c == '\U{205F}'
    || c == '\U{3000}' || c == '\U{FEFF}'
  }

  /** `s` without its leading white space. */
  function TrimStart(s: string): (r: string)
    ensures |r| <= |s|
  {
    if s != [] && IsStrWhiteSpace(s[0]) then TrimStart(s[1..]) else s
  }

  /** The length of the longest prefix of `s` made of digits. */
  function DigitRun(s: string): (n: nat)
    ensures n <= |s| && AllDigits(s[..n])
  {
    if s != [] && IsDigit(s[0]) then 1 + DigitRun(s[1..]) else 0
  }

  /** `TrimStart` removes the longest all-white-space prefix: what it drops is white space and what it keeps does not start with any. */
  lemma {:induction false} TrimStartDropsWhiteSpace(s: string)
    ensures TrimStart(s) == s[|s| - |TrimStart(s)|..]
    ensures TrimStart(s) == [] || !IsStrWhiteSpace(TrimStart(s)[0])
    ensures forall i :: 0 <= i < |s| - |TrimStart(s)| ==> IsStrWhiteSpace(s[i])
  {
    if s != [] && IsStrWhiteSpace(s[0]) {
      TrimStartDropsWhiteSpace(s[1..]);
    }
  }

  /** `DigitRun` is the length of the longest all-digit prefix. */
  lemma {:induction false} DigitRunIsLongest(s: string)
    ensures DigitRun(s) == |s| || !IsDigit(s[DigitRun(s)])
  {
    if s != [] && IsDigit(s[0]) {
      DigitRunIsLongest(s[1..]);
    }
  }

  function Pow10(e: nat): (r: nat)
    ensures r >= 1
  {
    if e == 0 then 1 else 10 * Pow10(e - 1)
  }

  /** 10 raised to a signed exponent, as an exact real. */
  function Scale(e: int): (r: real)
    ensures r > 0.0
  {
    if e >= 0 then Pow10(e) as real else 1.0 / Pow10(-e) as real
  }

  /**
   * The exponent part `(e|E)[+|-]digits` at the head of `s`, or 0 when `s`
   * does not start with one (a bare `e` is not an exponent).
   */
  function ExponentValue(s: string): int {
    if |s| >= 1 && (s[0] == 'e' || s[0] == 'E') then
      var signed := |s| >= 2 && (s[1] == '+' || s[1] == '-');
      var digits := if signed then s[2..] else s[1..];
      var n := DigitRun(digits);
      if n == 0 then 0
      else if signed && s[1] == '-' then -(DigitsValue(digits[..n]) as int)
      else DigitsValue(digits[..n])
    else 0
  }

  /**
   * The unsigned decimal literal at the head of `s`: `digits [. [digits]]`
   * or `. digits`, then an optional exponent. `None` when `s` starts with
   * neither a digit nor a dot followed by a digit.
   */
  function UnsignedDecimalPrefix(s: string): (r: Option<real>)
    ensures r.Some? ==> r.value >= 0.0
  {
    var i := DigitRun(s);
    var hasDot := i < |s| && s[i] == '.';
    var afterDot := if hasDot then s[i + 1..] else [];
    var f := DigitRun(afterDot);
    if i == 0 && f == 0 then None
    else
      var rest := if hasDot then afterDot[f..] else s[i..];
      Some(LiteralValue(s[..i], afterDot[..f], ExponentValue(rest)))
  }

  /** The value of `whole.fraction` times 10 to the `exponent`. */
  function LiteralValue(whole: string, fraction: string, exponent: int): (r: real)
    requires AllDigits(whole) && AllDigits(fraction)
    ensures r >= 0.0
  {
    var m := DigitsValue(whole) as real + DigitsValue(fraction) as real / Pow10(|fraction|) as real;
    NonNegativeProduct(m, Scale(exponent));
    m * Scale(exponent)
  }

  lemma NonNegativeProduct(a: real, b: real)
    requires a >= 0.0 && b > 0.0
    ensures a * b >= 0.0
  {
  }

  /** The sign and the remaining text of an already trimmed string. */
  function SplitSign(t: string): (bool, string) {
    if t != [] && (t[0] == '+' || t[0] == '-') then (t[0] == '-', t[1..]) else (false, t)
  }

  /** JavaScript `parseFloat(s)`; `None` is NaN. */
  function ParseFloat(s: string): Option<Num> {
    var (negative, body) := SplitSign(TrimStart(s));
    ParseSigned(negative, body)
  }

  /** What `parseFloat` reads from `body` once white space and sign are gone. */
  function ParseSigned(negative: bool, body: string): Option<Num> {
    if "Infinity" <= body then
      Some(if negative then NegInfinity else PosInfinity)
    else
      match UnsignedDecimalPrefix(body)
      case None => None
      case Some(v) => Some(if negative then Finite(-v) else Finite(v))
  }

  /**
   * `parseFloat` is NaN exactly when, after white space and sign, the text
   * starts with neither `Infinity`, nor a digit, nor a dot and a digit.
   */
  lemma NaNExactly(s: string)
    ensures var body := SplitSign(TrimStart(s)).1;
            ParseFloat(s) == None
            <==> !("Infinity" <= body)
                 && !(|body| >= 1 && IsDigit(body[0]))
                 && !(|body| >= 2 && body[0] == '.' && IsDigit(body[1]))
  {
  }

  /** The canonical rendering of a natural number, followed by text that does not extend the literal, reads back as that number. */
  lemma ParseDecimalText(n: nat, suffix: string)
    requires suffix == [] || !(IsDigit(suffix[0]) || suffix[0] == '.' || suffix[0] == 'e' || suffix[0] == 'E')
    ensures ParseFloat(DecimalText(n) + suffix) == Some(Finite(n as real))
  {
    var s := DecimalText(n) + suffix;
    assert IsDigit(s[0]);
    UnsignedDecimalOfText(n, suffix);
    ParseDigitLed(s, n as real);
  }

  /** Text that starts with a digit carries no white space, sign or `Infinity`: only its decimal prefix counts. */
  lemma ParseDigitLed(s: string, v: real)
    requires s != [] && IsDigit(s[0])
    requires UnsignedDecimalPrefix(s) == Some(v)
    ensures ParseFloat(s) == Some(Finite(v))
  {
  }

  lemma TrimStartStops(s: string)
    requires s == [] || !IsStrWhiteSpace(s[0])
    ensures TrimStart(s) == s
  {
  }

  lemma UnsignedDecimalOfText(n: nat, suffix: string)
    requires suffix == [] || !(IsDigit(suffix[0]) || suffix[0] == '.' || suffix[0] == 'e' || suffix[0] == 'E')
    ensures UnsignedDecimalPrefix(DecimalText(n) + suffix) == Some(n as real)
  {
    var d := DecimalText(n);
    var s := d + suffix;
    DigitRunStopsAtSuffix(d, suffix);
    var i := DigitRun(s);
    assert s[..i] == d;
    assert s[i..] == suffix;
    assert !(i < |s| && s[i] == '.');
    assert DigitRun([]) == 0;
    assert ExponentValue(suffix) == 0;
    DecimalTextRoundTrip(n);
    assert LiteralValue(d, [], 0) == n as real by {
      assert DigitsValue([]) == 0;
      assert Scale(0) == 1.0;
    }
  }

  /** The digit run of `d + suffix` is all of `d` when `suffix` does not start with a digit. */
  lemma {:induction false} DigitRunStopsAtSuffix(d: string, suffix: string)
    requires AllDigits(d)
    requires suffix == [] || !IsDigit(suffix[0])
    ensures DigitRun(d + suffix) == |d|
  {
    if d == [] {
      assert d + suffix == suffix;
    } else {
      assert (d + suffix)[0] == d[0];
      assert (d + suffix)[1..] == d[1..] + suffix;
      DigitRunStopsAtSuffix(d[1..], suffix);
    }
  }

  /** The empty text reads as NaN. */
  lemma EmptyIsNaN()
    ensures ParseFloat("") == None
  {
    assert TrimStart("") == "";
    assert SplitSign("") == (false, "");
  }

  /** Leading white space never changes what `parseFloat` reads. */
  lemma {:induction false} LeadingWhiteSpaceIgnored(w: string, s: string)
    requires forall i :: 0 <= i < |w| ==> IsStrWhiteSpace(w[i])
    ensures ParseFloat(w + s) == ParseFloat(s)
  {
    TrimStartSkipsWhiteSpace(w, s);
    assert SplitSign(TrimStart(w + s)) == SplitSign(TrimStart(s));
  }

  lemma {:induction false} TrimStartSkipsWhiteSpace(w: string, s: string)
    requires forall i :: 0 <= i < |w| ==> IsStrWhiteSpace(w[i])
    ensures TrimStart(w + s) == TrimStart(s)
  {
    if w != [] {
      assert (w + s)[0] == w[0];
      assert IsStrWhiteSpace(w[0]);
      assert (w + s)[1..] == w[1..] + s;
      assert TrimStart(w + s) == TrimStart(w[1..] + s);
      TrimStartSkipsWhiteSpace(w[1..], s);
    } else {
      assert w + s == s;
    }
  }

  /** A leading `-` negates what follows it and a leading `+` changes nothing. */
  lemma SignApplied(s: string)
    requires s == [] || !(IsStrWhiteSpace(s[0]) || s[0] == '+' || s[0] == '-')
    ensures ParseFloat(['-'] + s) == NegateParsed(ParseFloat(s))
    ensures ParseFloat(['+'] + s) == ParseFloat(s)
  {
  }

  /** NaN stays NaN; any other number is negated. */
  function NegateParsed(p: Option<Num>): Option<Num> {
    match p
    case None => None
    case Some(n) => Some(Negate(n))
  }

  /** A minus sign before a rendered natural number reads as its negation, never as a positive number. */
  lemma NegatedDecimalText(n: nat)
    ensures ParseFloat(['-'] + DecimalText(n)) == Some(Finite(-(n as real)))
    ensures !IsPositive(ParseFloat(['-'] + DecimalText(n)).value)
  {
    var d := DecimalText(n);
    assert ParseFloat(d) == Some(Finite(n as real)) by {
      ParseDecimalText(n, "");
      assert d + "" == d;
    }
    assert IsDigit(d[0]);
    SignApplied(d);
  }
}
