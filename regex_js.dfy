/** The three case-insensitive regular expressions the JavaScript
    coordinator tests keys with: `/result/i`, `/task\/mapper\/\d+/i` and
    `/reducerstate.\d+/i`. Each is a fixed sequence of atoms; a search for
    a pattern ending in `\d+` succeeds exactly when one digit is found
    there, so `\d+` is written as one `Digit`. */
module JsRegex {
  import opened Text

  datatype Atom =
    | Letter(c: char)   // a lower-case literal, matched ignoring ASCII case
    | AnyChar           // `.`: any character but a line terminator
    | Digit             // `\d`

  predicate IsLineTerminator(c: char)
  {
    c == '\n' || c == '\r' || c as int == 0x2028 || c as int == 0x2029
  }

  /** Under the `i` flag a character matches an ASCII literal iff its ASCII
      lower-case form is that literal (no other character folds to ASCII). */
  predicate AtomMatches(a: Atom, c: char)
  {
    match a
    case Letter(x) => LowerChar(c) == x
    case AnyChar => !IsLineTerminator(c)
    case Digit => IsDigit(c)
  }

  predicate MatchesAt(s: string, p: seq<Atom>)
  {
    |p| <= |s| && forall i | 0 <= i < |p| :: AtomMatches(p[i], s[i])
  }

  /** `s.match(re) != null`: the pattern matches at some position. */
  predicate Search(s: string, p: seq<Atom>)
    decreases |s|
  {
    MatchesAt(s, p) || (s != [] && Search(s[1..], p))
  }

  function Literal(t: string): (p: seq<Atom>)
    ensures |p| == |t|
  {
    seq(|t|, i requires 0 <= i < |t| => Letter(t[i]))
  }

  const ResultPattern: seq<Atom> := Literal("result")
  const MapperPattern: seq<Atom> := Literal("task/mapper/") + [Digit]
  const MarkerPattern: seq<Atom> := Literal("reducerstate") + [AnyChar, Digit]

  predicate IsLowerText(t: string)
  {
    forall i | 0 <= i < |t| :: LowerChar(t[i]) == t[i]
  }

  lemma LowerTail(s: string)
    requires s != []
    ensures Lower(s)[1..] == Lower(s[1..])
  {
  }

  lemma MatchesLiteralAt(s: string, t: string)
    requires IsLowerText(t)
    ensures MatchesAt(s, Literal(t)) <==> t <= Lower(s)
  {
    if |t| <= |s| {
      assert MatchesAt(s, Literal(t)) ==> forall i | 0 <= i < |t| :: Lower(s)[i] == t[i];
      assert t <= Lower(s) ==> forall i | 0 <= i < |t| :: LowerChar(s[i]) == t[i];
    }
  }

  /** A literal pattern without upper-case letters is found iff the text,
      folded to lower case, contains it. */
  lemma {:induction false} SearchLiteral(s: string, t: string)
    requires IsLowerText(t)
    ensures Search(s, Literal(t)) <==> Contains(Lower(s), t)
    decreases |s|
  {
    MatchesLiteralAt(s, t);
    if s != [] {
      SearchLiteral(s[1..], t);
      LowerTail(s);
    }
  }

  /** `/result/i` finds exactly the keys whose lower-case form contains
      "result"; so it finds every key in which Python's `"result" in key`
      holds. */
  lemma ResultPatternIsSubstring(s: string)
    ensures Search(s, ResultPattern) <==> Contains(Lower(s), "result")
    ensures Contains(s, "result") ==> Search(s, ResultPattern)
  {
    SearchLiteral(s, "result");
    if Contains(s, "result") {
      ContainsLowered(s, "result");
    }
  }

  /** Folding the text to lower case keeps a lower-case infix. */
  lemma {:induction false} ContainsLowered(s: string, t: string)
    requires IsLowerText(t) && Contains(s, t)
    ensures Contains(Lower(s), t)
    decreases |s|
  {
    if t <= s {
      assert t <= Lower(s) by {
        assert forall i | 0 <= i < |t| :: Lower(s)[i] == LowerChar(t[i]);
      }
    } else {
      ContainsLowered(s[1..], t);
      LowerTail(s);
    }
  }
}
