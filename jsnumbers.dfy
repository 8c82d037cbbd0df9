/** The JavaScript number values that reach the modelled code: integers,
    the two infinities and NaN, with the comparisons and the `parseInt`
    the code applies to them. */
module JsNumbers {
  import opened Text

  datatype JsNumber = Finite(value: int) | PosInfinity | NegInfinity | NaN

  /** `x >= b` for an integer `x` (every comparison with NaN is false). */
  predicate AtLeast(x: int, b: JsNumber)
  {
    match b
    case Finite(v) => x >= v
    case PosInfinity => false
    case NegInfinity => true
    case NaN => false
  }

  /** `a >= x` for an integer `x`. */
  predicate NotBelow(a: JsNumber, x: int)
  {
    match a
    case Finite(v) => v >= x
    case PosInfinity => true
    case NegInfinity => false
    case NaN => false
  }

  /** `a > x` for an integer `x`. */
  predicate Exceeds(a: JsNumber, x: int)
  {
    match a
    case Finite(v) => v > x
    case PosInfinity => true
    case NegInfinity => false
    case NaN => false
  }

  /** The white space `parseInt` skips: StrWhiteSpaceChar of ECMA-262. */
  predicate IsJsSpace(c: char)
  {
    var n := c as int;
    n == 9 || n == 10 || n == 11 || n == 12 || n == 13 || n == 32 || n == 0xA0 ||
    n == 0x1680 || (0x2000 <= n <= 0x200A) || n == 0x2028 || n == 0x2029 ||
    n == 0x202F || n == 0x205F || n == 0x3000 || n == 0xFEFF
  }

  /** The longest prefix of `s` made of digits of the given radix. */
  function LeadingDigits(s: string, radix: nat): (r: string)
    ensures r <= s
    decreases |s|
  {
    if s != [] && DigitValue(s[0]) < radix then [s[0]] + LeadingDigits(s[1..], radix) else []
  }

  /** `parseInt(s)` without a radix: leading white space, an optional sign,
      an optional `0x` prefix selecting radix 16, then the longest run of
      digits; NaN when that run is empty. */
  function ParseInt(s: string): JsNumber
  {
    var t := TrimStart(s, IsJsSpace);
    var signed := t != [] && (t[0] == '-' || t[0] == '+');
    var u := if signed then t[1..] else t;
    var hex := |u| >= 2 && u[0] == '0' && (u[1] == 'x' || u[1] == 'X');
    var radix := if hex then 16 else 10;
    var digits := LeadingDigits(if hex then u[2..] else u, radix);
    var magnitude: int := Value(digits, radix);
    if digits == [] then NaN
    else Finite(if signed && t[0] == '-' then -magnitude else magnitude)
  }

  lemma {:induction false} LeadingDigitsOfDigits(s: string)
    requires AllDigits(s)
    ensures LeadingDigits(s, 10) == s
    decreases |s|
  {
    if s != [] {
      LeadingDigitsOfDigits(s[1..]);
      assert [s[0]] + s[1..] == s;
    }
  }

  /** `parseInt(String(n)) === n` for a non-negative integer. */
  lemma ParseIntOfString(n: nat)
    ensures ParseInt(NatToString(n)) == Finite(n)
  {
    var s := NatToString(n);
    NatToStringDecimal(n);
    assert IsDigit(s[0]);
    assert TrimStart(s, IsJsSpace) == s;
    assert s[0] == '0' ==> |s| == 1;
    LeadingDigitsOfDigits(s);
  }
}
