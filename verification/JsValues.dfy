/**
 * The small slice of JavaScript value semantics the server relies on:
 * truthiness of scalar values, rendering a value inside a template literal,
 * `String.prototype.padStart`, and the truncating `%` operator.
 */
module JsValues {
  import opened Wrappers

  /**
   * A scalar JSON field as the server sees it. Only integral numbers are
   * modelled (identifiers and codes); NaN and fractions never reach the
   * paths modelled here.
   */
  datatype Scalar = Undefined | Null | Num(n: int) | Str(s: string)

  /** JavaScript truthiness: `undefined`, `null`, `0` and `""` are falsy. */
  predicate Truthy(v: Scalar) {
    match v
    case Undefined => false
    case Null => false
    case Num(n) => n != 0
    case Str(s) => s != ""
  }

  /** Truthiness of an optional string field (a missing property is `undefined`). */
  predicate Present(o: Option<string>) {
    o.Some? && o.value != ""
  }

  predicate IsDigit(c: char) {
    '0' <= c <= '9'
  }

  predicate AllDigits(s: string) {
    forall i :: 0 <= i < |s| ==> IsDigit(s[i])
  }

  function DigitChar(d: nat): (c: char)
    requires d < 10
    ensures IsDigit(c)
  {
    "0123456789"[d]
  }

  function DigitValue(c: char): (d: nat)
    requires IsDigit(c)
    ensures d < 10
  {
    (c as int - '0' as int) as nat
  }

  lemma DigitRoundTrip(d: nat)
    requires d < 10
    ensures DigitValue(DigitChar(d)) == d
  {
  }

  /** `String(n)` for a non-negative integer: decimal digits, no leading zero. */
  function NatToString(n: nat): (s: string)
    ensures |s| >= 1 && AllDigits(s)
    ensures n < 10 ==> |s| == 1
    ensures 10 <= n < 100 ==> |s| == 2
    ensures n >= 10 ==> |s| >= 2
    ensures n >= 1 ==> s[0] != '0'
  {
    if n < 10 then [DigitChar(n)] else NatToString(n / 10) + [DigitChar(n % 10)]
  }

  /** `String(i)` for any integer: a minus sign before the digits of its magnitude. */
  function IntToString(i: int): string {
    if i < 0 then "-" + NatToString(-i) else NatToString(i)
  }

  /** The value of a string of decimal digits (leading zeros allowed). */
  function ParseNat(s: string): nat
    requires AllDigits(s)
  {
    if |s| == 0 then 0 else ParseNat(s[..|s| - 1]) * 10 + DigitValue(s[|s| - 1])
  }

  /** Reading back what `String(n)` printed gives `n`. */
  lemma {:induction false} ParseNatToString(n: nat)
    ensures ParseNat(NatToString(n)) == n
  {
    var s := NatToString(n);
    if n < 10 {
      assert s[..0] == [];
      DigitRoundTrip(n);
    } else {
      assert s[..|s| - 1] == NatToString(n / 10);
      ParseNatToString(n / 10);
      DigitRoundTrip(n % 10);
    }
  }

  /** A leading zero does not change the value read. */
  lemma {:induction false} ParseNatLeadingZero(s: string)
    requires AllDigits(s)
    ensures AllDigits("0" + s) && ParseNat("0" + s) == ParseNat(s)
  {
    var t := "0" + s;
    if |s| == 0 {
      assert t[..0] == [];
    } else {
      assert t[..|t| - 1] == "0" + s[..|s| - 1];
      ParseNatLeadingZero(s[..|s| - 1]);
    }
  }

  /** How a scalar is rendered by `${value}` inside a template literal. */
  function Render(v: Scalar): string {
    match v
    case Undefined => "undefined"
    case Null => "null"
    case Num(n) => IntToString(n)
    case Str(s) => s
  }

  function Repeat(c: char, k: nat): (r: string)
    ensures |r| == k
    ensures forall i :: 0 <= i < k ==> r[i] == c
  {
    if k == 0 then [] else [c] + Repeat(c, k - 1)
  }

  /** `s.padStart(width, fill)` with a one-character fill. */
  function PadStart(s: string, width: nat, fill: char): (r: string)
    ensures |r| == if |s| >= width then |s| else width
  {
    if |s| >= width then s else Repeat(fill, width - |s|) + s
  }

  /**
   * JavaScript's `a % b` for a positive divisor: the remainder of the
   * quotient truncated toward zero, so it takes the sign of `a`.
   */
  function JsRem(a: int, b: int): (r: int)
    requires b > 0
    ensures -b < r < b
    ensures r == 0 || (r < 0 <==> a < 0)
    ensures a >= 0 ==> r == a % b
  {
    if a >= 0 then a % b else -((-a) % b)
  }

  /**
   * Truncation is symmetric in the sign of the dividend: `(-a) % b` is
   * `-(a % b)`. With the non-negative case above this fixes every value,
   * e.g. `-8 % 3` is `-2` and not the Euclidean `1`.
   */
  lemma JsRemOdd(a: int, b: int)
    requires b > 0
    ensures JsRem(-a, b) == -JsRem(a, b)
  {
  }

  /** A negative dividend keeps its sign, where Dafny's Euclidean `%` would give `1`. */
  lemma JsRemExample()
    ensures JsRem(-8, 3) == -2
  {
  }
}
