/** The fragment of JavaScript regular expressions used by the waitlist
    form's email check: an anchored pattern (`^...$`) made of single atoms and
    `+`-repeated atoms, where an atom is a literal character or a negated class
    `[^\s c]`. `test` on an anchored pattern asks whether the whole string
    matches, so the matcher below answers that question. */
module Regex {

  /** ECMAScript `\s`: the WhiteSpace and LineTerminator code points. */
  predicate IsWhitespace(c: char)
  {
    || c == '\t' || c == '\n' || c == '\U{000B}' || c == '\U{000C}' || c == '\r'
    || c == ' ' || c == '\U{00A0}' || c == '\U{1680}'
    || ('\U{2000}' <= c <= '\U{200A}')
    || c == '\U{2028}' || c == '\U{2029}' || c == '\U{202F}' || c == '\U{205F}'
    || c == '\U{3000}' || c == '\U{FEFF}'
  }

  /** A single-character atom: `c` (or `\c`), or `[^\sc]`. */
  datatype Atom = Literal(c: char) | NotSpaceNor(excluded: char)

  /** An atom matched exactly once, or one or more times (`+`). */
  datatype Piece = Once(atom: Atom) | OneOrMore(atom: Atom)

  predicate AtomMatches(a: Atom, c: char)
  {
    match a
    case Literal(x) => c == x
    case NotSpaceNor(x) => !IsWhitespace(c) && c != x
  }

  /** Every character of `s` matches `a`. */
  predicate AllMatch(a: Atom, s: string)
  {
    forall i | 0 <= i < |s| :: AtomMatches(a, s[i])
  }

  /** `/^p$/.test(s)`: some way of matching the pieces of `p` in turn
      consumes exactly `s`. Every piece consumes at least one character. */
  predicate FullMatch(p: seq<Piece>, s: string)
    decreases |p|, |s|
    ensures FullMatch(p, s) ==> |p| <= |s|
  {
    if p == [] then s == []
    else if s == [] then false
    else
      match p[0]
      case Once(a) => AtomMatches(a, s[0]) && FullMatch(p[1..], s[1..])
      case OneOrMore(a) =>
        AtomMatches(a, s[0]) && (FullMatch(p[1..], s[1..]) || FullMatch(p, s[1..]))
  }

  /** A match of `a+ rest` splits `s` into a non-empty run of `a`s and a
      match of `rest`; `j` is where the run ends. */
  lemma {:induction false} OneOrMoreSplit(p: seq<Piece>, s: string) returns (j: nat)
    requires |p| > 0 && p[0].OneOrMore?
    requires FullMatch(p, s)
    ensures 1 <= j <= |s|
    ensures AllMatch(p[0].atom, s[..j]) && FullMatch(p[1..], s[j..])
  {
    if FullMatch(p[1..], s[1..]) {
      j := 1;
    } else {
      var k := OneOrMoreSplit(p, s[1..]);
      j := k + 1;
      assert s[1..][k..] == s[j..];
      forall i | 0 <= i < j ensures AtomMatches(p[0].atom, s[..j][i]) {
        if i > 0 {
          assert s[..j][i] == s[1..][..k][i - 1];
        }
      }
    }
  }

  /** Conversely, a non-empty run of `a`s followed by a match of `rest` is a
      match of `a+ rest`. */
  lemma {:induction false} OneOrMoreJoin(p: seq<Piece>, s: string, j: nat)
    requires |p| > 0 && p[0].OneOrMore?
    requires 1 <= j <= |s|
    requires AllMatch(p[0].atom, s[..j]) && FullMatch(p[1..], s[j..])
    ensures FullMatch(p, s)
  {
    assert AtomMatches(p[0].atom, s[..j][0]);
    if j > 1 {
      assert s[1..][j - 1..] == s[j..];
      var run := s[1..][..j - 1];
      forall i | 0 <= i < |run| ensures AtomMatches(p[0].atom, run[i]) {
        assert run[i] == s[..j][i + 1];
      }
      OneOrMoreJoin(p, s[1..], j - 1);
    }
  }
}
