/**
 * The planting-date check of `validarDados`: the regular expression
 * `^\d{2}\/\d{2}\/\d{4}$`, tested against the whole text.
 *
 * The expression is a fixed sequence of pieces, each an atom repeated an
 * exact number of times; anchored at both ends, it matches exactly one
 * split of the text. Only the shape is checked: no calendar rule applies.
 */
module DateShape {
  import opened Decimal

  /** One atom of the expression: `\d` or a literal character. */
  datatype Atom = AnyDigit | Literal(c: char)

  /** An atom repeated exactly `count` times (`\d{2}`, or `\/` for a count of one). */
  datatype Piece = Repeat(atom: Atom, count: nat)

  /** `^\d{2}\/\d{2}\/\d{4}$`. */
  const DatePattern: seq<Piece> :=
    [Repeat(AnyDigit, 2), Repeat(Literal('/'), 1), Repeat(AnyDigit, 2), Repeat(Literal('/'), 1), Repeat(AnyDigit, 4)]

  predicate AtomMatches(a: Atom, c: char) {
    match a
    case AnyDigit => IsDigit(c)
    case Literal(l) => c == l
  }

  /** `s` is matched, from its first character to its last, by the pieces `p` in order. */
  predicate MatchesWhole(p: seq<Piece>, s: string)
    decreases p
  {
    if p == [] then s == []
    else
      p[0].count <= |s|
      && (forall i :: 0 <= i < p[0].count ==> AtomMatches(p[0].atom, s[i]))
      && MatchesWhole(p[1..], s[p[0].count..])
  }

  /** `dataRegex.test(s)` for the date expression. */
  predicate IsDateText(s: string) {
    MatchesWhole(DatePattern, s)
  }

  /** The same shape, position by position: `DD/MM/YYYY` with ASCII digits. */
  predicate HasDateShape(s: string) {
    |s| == 10 && s[2] == '/' && s[5] == '/'
    && IsDigit(s[0]) && IsDigit(s[1]) && IsDigit(s[3]) && IsDigit(s[4])
    && IsDigit(s[6]) && IsDigit(s[7]) && IsDigit(s[8]) && IsDigit(s[9])
  }

  /** The expression accepts exactly the ten-character texts with digits and slashes in place. */
  lemma DatePatternIsShape(s: string)
    ensures IsDateText(s) <==> HasDateShape(s)
  {
  }

  /** Every match of `p` is as long as the counts of `p` add up to. */
  lemma {:induction false} MatchLength(p: seq<Piece>, s: string)
    requires MatchesWhole(p, s)
    ensures |s| == TotalCount(p)
    decreases p
  {
    if p != [] {
      MatchLength(p[1..], s[p[0].count..]);
    }
  }

  /** The number of characters a whole match of `p` consumes. */
  function TotalCount(p: seq<Piece>): nat
    decreases p
  {
    if p == [] then 0 else p[0].count + TotalCount(p[1..])
  }

  /** No text shorter than ten characters matches: the date expression consumes exactly ten. */
  lemma ShortTextRejected(s: string)
    requires |s| < 10
    ensures !IsDateText(s)
  {
    assert TotalCount(DatePattern) == 10;
    if IsDateText(s) {
      MatchLength(DatePattern, s);
    }
  }

  /** No calendar check: a month of 13 passes; a dash instead of a slash, or a trailing newline, fails. */
  lemma ShapeOnly()
    ensures IsDateText("31/13/9999")
    ensures IsDateText("15/09/2025")
    ensures !IsDateText("15-09-2025")
    ensures !IsDateText("15/09/2025\n")
    ensures !IsDateText("5/9/2025")
  {
    DatePatternIsShape("31/13/9999");
    DatePatternIsShape("15/09/2025");
    DatePatternIsShape("15-09-2025");
    DatePatternIsShape("15/09/2025\n");
    DatePatternIsShape("5/9/2025");
  }
}
