/** The string operations of Python and JavaScript that the modelled code
    relies on: substring search, splitting on one character, decimal
    rendering of integers and Python's int() on text. */
module Text {
  import opened Outcomes

  // ---------------------------------------------------------------------------
  // Substrings
  // ---------------------------------------------------------------------------

  /** `t in s` in Python, `s.indexOf(t) >= 0` in JavaScript. */
  predicate Contains(s: string, t: string)
    decreases |s|
  {
    t <= s || (s != [] && Contains(s[1..], t))
  }

  lemma {:induction false} ContainsInfix(a: string, t: string, b: string)
    ensures Contains(a + t + b, t)
  {
    if a == [] {
      assert a + t + b == t + b;
    } else {
      ContainsInfix(a[1..], t, b);
      assert (a + t + b)[1..] == a[1..] + t + b;
    }
  }

  lemma ContainsSuffix(a: string, t: string)
    ensures Contains(a + t, t)
  {
    ContainsInfix(a, t, []);
    assert a + t + [] == a + t;
  }

  lemma {:induction false} ContainsShorter(s: string, t: string)
    requires |s| < |t|
    ensures !Contains(s, t)
  {
    if s != [] {
      ContainsShorter(s[1..], t);
    }
  }

  /** Every character of a contained string occurs in the containing one. */
  lemma {:induction false} ContainsChars(s: string, t: string, k: nat)
    requires Contains(s, t) && k < |t|
    ensures t[k] in s
  {
    if t <= s {
      assert s[k] == t[k];
    } else {
      ContainsChars(s[1..], t, k);
    }
  }

  lemma PrefixBeforeSeparator(a: string, c: char, b: string, t: string)
    requires c !in t
    ensures t <= a + [c] + b <==> t <= a
  {
    var s := a + [c] + b;
    if |t| <= |a| {
      assert s[..|t|] == a[..|t|];
      assert t <= s ==> t == s[..|t|];
      assert t <= a ==> t == a[..|t|];
    } else {
      assert s[|a|] == c;
    }
  }

  /** A character that `t` does not contain cuts the search for `t` in two. */
  lemma {:induction false} ContainsAcross(a: string, c: char, b: string, t: string)
    requires c !in t
    ensures Contains(a + [c] + b, t) <==> Contains(a, t) || Contains(b, t)
  {
    if a == [] {
      assert a + [c] + b == [c] + b;
      assert ([c] + b)[1..] == b;
      PrefixBeforeSeparator(a, c, b, t);
    } else {
      ContainsAcross(a[1..], c, b, t);
      assert (a + [c] + b)[1..] == a[1..] + [c] + b;
      PrefixBeforeSeparator(a, c, b, t);
    }
  }

  // ---------------------------------------------------------------------------
  // Case folding (what the `i` flag of a JavaScript regular expression does
  // to ASCII letters)
  // ---------------------------------------------------------------------------

  function LowerChar(c: char): char
  {
    if 'A' <= c <= 'Z' then (c as int + 32) as char else c
  }

  function Lower(s: string): (r: string)
    ensures |r| == |s|
  {
    seq(|s|, i requires 0 <= i < |s| => LowerChar(s[i]))
  }

  // ---------------------------------------------------------------------------
  // Splitting: Python's `s.split(c)` and JavaScript's `s.split(c)` for a
  // one-character separator agree (`"".split(c)` is `[""]` in both)
  // ---------------------------------------------------------------------------

  function Split(s: string, sep: char): (parts: seq<string>)
    ensures |parts| >= 1
    decreases |s|
  {
    if s == [] then [[]]
    else
      var rest := Split(s[1..], sep);
      if s[0] == sep then [[]] + rest
      else [[s[0]] + rest[0]] + rest[1..]
  }

  lemma {:induction false} SplitNoSeparator(s: string, sep: char)
    requires sep !in s
    ensures Split(s, sep) == [s]
  {
    if s != [] {
      SplitNoSeparator(s[1..], sep);
      assert [s[0]] + s[1..] == s;
    }
  }

  /** Splitting is a homomorphism across one occurrence of the separator. */
  lemma {:induction false} SplitJoin(a: string, sep: char, b: string)
    ensures Split(a + [sep] + b, sep) == Split(a, sep) + Split(b, sep)
  {
    var s := a + [sep] + b;
    if a == [] {
      assert s == [sep] + b;
      assert s[1..] == b;
    } else {
      assert s[0] == a[0];
      assert s[1..] == a[1..] + [sep] + b;
      SplitJoin(a[1..], sep, b);
    }
  }

  /** A text holding the separator splits into at least two parts. */
  lemma {:induction false} SplitAtSeparator(s: string, sep: char)
    requires sep in s
    ensures |Split(s, sep)| >= 2
    decreases |s|
  {
    if s[0] != sep {
      assert s == [s[0]] + s[1..];
      SplitAtSeparator(s[1..], sep);
    }
  }

  /** The number of occurrences of `c` in `s`. */
  function Count(s: string, c: char): nat
    decreases |s|
  {
    if s == [] then 0 else (if s[0] == c then 1 else 0) + Count(s[1..], c)
  }

  /** Splitting gives one part more than there are separators. */
  lemma {:induction false} SplitCount(s: string, sep: char)
    ensures |Split(s, sep)| == Count(s, sep) + 1
    decreases |s|
  {
    if s != [] {
      SplitCount(s[1..], sep);
    }
  }

  /** The first part is the longest prefix without the separator. */
  lemma {:induction false} SplitFirst(s: string, sep: char)
    ensures Split(s, sep)[0] <= s
    ensures sep !in Split(s, sep)[0]
    ensures |Split(s, sep)[0]| < |s| ==> s[|Split(s, sep)[0]|] == sep
    decreases |s|
  {
    if s != [] && s[0] != sep {
      SplitFirst(s[1..], sep);
    }
  }

  /** One separator between two separator-free pieces splits into exactly them. */
  lemma SplitTwo(a: string, sep: char, b: string)
    requires sep !in a && sep !in b
    ensures Split(a + [sep] + b, sep) == [a, b]
  {
    SplitJoin(a, sep, b);
    SplitNoSeparator(a, sep);
    SplitNoSeparator(b, sep);
  }

  // ---------------------------------------------------------------------------
  // Decimal numerals
  // ---------------------------------------------------------------------------

  predicate IsDigit(c: char)
  {
    '0' <= c <= '9'
  }

  predicate AllDigits(s: string)
  {
    forall i | 0 <= i < |s| :: IsDigit(s[i])
  }

  function DigitChar(d: nat): char
    requires d < 10
  {
    ('0' as int + d) as char
  }

  /** Python's `str(n)` / `'%s' % n` and JavaScript's `String(n)` for a
      non-negative integer. */
  function NatToString(n: nat): string
    decreases n
  {
    if n < 10 then [DigitChar(n)] else NatToString(n / 10) + [DigitChar(n % 10)]
  }

  function IntToString(i: int): string
  {
    if i < 0 then "-" + NatToString(-i) else NatToString(i)
  }

  /** The value of a digit in any radix up to 36 (36 for a non-digit). */
  function DigitValue(c: char): nat
  {
    if '0' <= c <= '9' then c as nat - '0' as nat
    else if 'a' <= c <= 'z' then c as nat - 'a' as nat + 10
    else if 'A' <= c <= 'Z' then c as nat - 'A' as nat + 10
    else 36
  }

  /** The value of a numeral read most significant digit first. */
  function Value(s: string, radix: nat): nat
    decreases |s|
  {
    if s == [] then 0 else Value(s[..|s| - 1], radix) * radix + DigitValue(s[|s| - 1])
  }

  lemma {:induction false} NatToStringDecimal(n: nat)
    ensures NatToString(n) != [] && AllDigits(NatToString(n))
    ensures Value(NatToString(n), 10) == n
    ensures NatToString(n)[0] == '0' ==> NatToString(n) == "0"
    decreases n
  {
    if n >= 10 {
      NatToStringDecimal(n / 10);
      var s := NatToString(n);
      assert s[..|s| - 1] == NatToString(n / 10);
      assert s[0] == NatToString(n / 10)[0];
    }
  }

  lemma NoSeparatorInNumeral(n: nat, c: char)
    requires !IsDigit(c)
    ensures c !in NatToString(n)
  {
    NatToStringDecimal(n);
  }

  // ---------------------------------------------------------------------------
  // Python 2's int() on a str
  // ---------------------------------------------------------------------------

  predicate IsPySpace(c: char)
  {
    c == ' ' || c == '\t' || c == '\n' || c == '\r' || c as int == 11 || c as int == 12
  }

  function TrimStart(s: string, space: char -> bool): string
    decreases |s|
  {
    if s != [] && space(s[0]) then TrimStart(s[1..], space) else s
  }

  function TrimEnd(s: string, space: char -> bool): string
    decreases |s|
  {
    if s != [] && space(s[|s| - 1]) then TrimEnd(s[..|s| - 1], space) else s
  }

  lemma TrimmedAlready(s: string, space: char -> bool)
    requires s != [] && !space(s[0]) && !space(s[|s| - 1])
    ensures TrimEnd(TrimStart(s, space), space) == s
  {
  }

  /** `int(s)`: optional surrounding whitespace, an optional sign, then one
      or more decimal digits; anything else raises ValueError. */
  function PyInt(s: string): Result<int>
  {
    var t := TrimEnd(TrimStart(s, IsPySpace), IsPySpace);
    var signed := t != [] && (t[0] == '-' || t[0] == '+');
    var body := if signed then t[1..] else t;
    var magnitude: int := Value(body, 10);
    if body != [] && AllDigits(body) then
      Ok(if t[0] == '-' then -magnitude else magnitude)
    else
      Err(ValueError)
  }

  lemma PyIntOfNumeral(s: string, negative: bool, digits: string)
    requires digits != [] && AllDigits(digits)
    requires s == (if negative then "-" else "") + digits
    ensures PyInt(s) == Ok(if negative then -(Value(digits, 10) as int) else Value(digits, 10))
  {
    assert s[|s| - 1] == digits[|digits| - 1];
    assert IsDigit(s[|s| - 1]);
    TrimmedAlready(s, IsPySpace);
    if negative {
      assert s[1..] == digits;
    } else {
      assert s == digits;
      assert !(s[0] == '-' || s[0] == '+');
    }
  }

  /** `int('%s' % i) == i`: Python reads back what it formats. */
  lemma PyIntOfString(i: int)
    ensures PyInt(IntToString(i)) == Ok(i)
  {
    var n: nat := if i < 0 then -i else i;
    NatToStringDecimal(n);
    PyIntOfNumeral(IntToString(i), i < 0, NatToString(n));
  }
}
