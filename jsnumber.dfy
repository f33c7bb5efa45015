/**
 * The handful of JavaScript number and string primitives the timer's display relies on:
 * `Math.floor(a / b)`, the truncating remainder `a % b`, `Number.prototype.toString()` on an
 * integer, and `String.prototype.padStart(n, fill)` with a one-character fill. Integers are
 * unbounded here, so these are exact only within JavaScript's safe integers (magnitude below
 * 2^53), where a double holds every integer and `toString()` uses no exponent.
 * `Value` reads a string of decimal digits back as a number; it is the partner of `Digits`.
 */
module JsNumber {

  predicate IsDigit(c: char) {
    '0' <= c <= '9'
  }

  predicate AllDigits(s: string) {
    forall i :: 0 <= i < |s| ==> IsDigit(s[i])
  }

  function DigitValue(c: char): (d: nat)
    requires IsDigit(c)
    ensures d < 10
  {
    c as int - '0' as int
  }

  function DigitChar(d: nat): (c: char)
    requires d < 10
    ensures IsDigit(c) && DigitValue(c) == d
  {
    ('0' as int + d) as char
  }

  /** The decimal digits of `n`, most significant first, with no leading zero unless `n == 0`. */
  function Digits(n: nat): (s: string)
    ensures 1 <= |s| && AllDigits(s)
    ensures s[0] == '0' <==> n == 0
    ensures |s| == 1 <==> n < 10
    ensures n < 100 ==> |s| <= 2
    decreases n
  {
    if n < 10 then [DigitChar(n)] else Digits(n / 10) + [DigitChar(n % 10)]
  }

  /** The number a string of decimal digits denotes. */
  function Value(s: string): nat
    requires AllDigits(s)
    decreases |s|
  {
    if s == [] then 0 else 10 * Value(s[..|s| - 1]) + DigitValue(s[|s| - 1])
  }

  lemma {:induction false} ValueOfDigits(n: nat)
    ensures Value(Digits(n)) == n
    decreases n
  {
    if n >= 10 {
      var s := Digits(n);
      assert s[..|s| - 1] == Digits(n / 10);
      ValueOfDigits(n / 10);
    }
  }

  predicate AllZeros(z: string) {
    forall i :: 0 <= i < |z| ==> z[i] == '0'
  }

  lemma {:induction false} ValueOfZeros(z: string)
    requires AllZeros(z)
    ensures AllDigits(z) && Value(z) == 0
    decreases |z|
  {
    if z != [] {
      ValueOfZeros(z[..|z| - 1]);
    }
  }

  /** Leading zeros do not change the value of a digit string. */
  lemma {:induction false} ValueIgnoresLeadingZeros(z: string, s: string)
    requires AllZeros(z) && AllDigits(s)
    ensures AllDigits(z + s) && Value(z + s) == Value(s)
    decreases |s|
  {
    ValueOfZeros(z);
    if s == [] {
      assert z + s == z;
    } else {
      var init := s[..|s| - 1];
      assert (z + s)[..|z + s| - 1] == z + init;
      ValueIgnoresLeadingZeros(z, init);
    }
  }

  /** `Math.floor(a / b)` for integers and a positive divisor. */
  function FloorDiv(a: int, b: int): (q: int)
    requires b > 0
    ensures b * q <= a < b * q + b
  {
    a / b
  }

  /** Division truncated toward zero, the quotient that goes with JavaScript's `%`. */
  function TruncDiv(a: int, b: int): int
    requires b > 0
  {
    if a >= 0 then a / b else -((-a) / b)
  }

  /** JavaScript's `a % b`: the remainder of division truncated toward zero, so it has the sign of `a`. */
  function Rem(a: int, b: int): (r: int)
    requires b > 0
    ensures a >= 0 ==> 0 <= r < b
    ensures a < 0 ==> -b < r <= 0
    ensures a == b * TruncDiv(a, b) + r
  {
    if a >= 0 then a % b else -((-a) % b)
  }

  /**
   * `Number.prototype.toString()` of a safe integer: an optional minus sign, then decimal digits
   * that read back as the magnitude.
   */
  function ToString(i: int): (s: string)
    ensures i >= 0 ==> AllDigits(s) && Value(s) == i
    ensures i < 0 ==> |s| >= 2 && s[0] == '-' && AllDigits(s[1..]) && Value(s[1..]) == -i
  {
    if i < 0 then (ValueOfDigits(-i); "-" + Digits(-i)) else (ValueOfDigits(i); Digits(i))
  }

  /** `s.padStart(targetLength, fill)` for a one-character `fill`. */
  function PadStart(s: string, targetLength: nat, fill: char): (r: string)
    ensures |r| == if |s| < targetLength then targetLength else |s|
    ensures r[|r| - |s|..] == s
    ensures forall i :: 0 <= i < |r| - |s| ==> r[i] == fill
  {
    if |s| >= targetLength then s else seq(targetLength - |s|, _ => fill) + s
  }

  /** Zero-padding a digit string keeps it a digit string with the same value. */
  lemma ZeroPadKeepsValue(s: string, targetLength: nat)
    requires AllDigits(s)
    ensures AllDigits(PadStart(s, targetLength, '0'))
    ensures Value(PadStart(s, targetLength, '0')) == Value(s)
  {
    var r := PadStart(s, targetLength, '0');
    var z := r[..|r| - |s|];
    assert r == z + s;
    ValueIgnoresLeadingZeros(z, s);
  }
}
