/** The few pieces of Java's numeric and string semantics that SunCycle relies on,
    stated over exact arithmetic (reals and unbounded integers). */
module JavaLang {

  /** Java's `(int)` cast of a finite floating-point value: rounds toward zero. */
  function Trunc(x: real): (r: int)
    ensures x >= 0.0 ==> 0 <= r && r as real <= x < r as real + 1.0
    ensures x <= 0.0 ==> r <= 0 && r as real - 1.0 < x <= r as real
  {
    if x >= 0.0 then x.Floor else -((-x).Floor)
  }

  /** Java's `%` on floating-point operands: the remainder of the quotient truncated
      toward zero, so the result takes the sign of the dividend. */
  function FMod(a: real, b: real): (r: real)
    requires b != 0.0
    ensures b > 0.0 && a >= 0.0 ==> 0.0 <= r < b
    ensures b > 0.0 && a <= 0.0 ==> -b < r <= 0.0
    ensures b > 0.0 && 0.0 <= a < b ==> r == a
    ensures b > 0.0 && b <= a < 2.0 * b ==> r == a - b
  {
    FModBounds(a, b);
    a - b * Trunc(a / b) as real
  }

  /** The remainder of truncated division stays within one divisor of zero, on the dividend's side. */
  lemma FModBounds(a: real, b: real)
    requires b != 0.0
    ensures b > 0.0 && a >= 0.0 ==> 0.0 <= a - b * Trunc(a / b) as real < b
    ensures b > 0.0 && a <= 0.0 ==> -b < a - b * Trunc(a / b) as real <= 0.0
    ensures b > 0.0 && 0.0 <= a < b ==> Trunc(a / b) == 0
    ensures b > 0.0 && b <= a < 2.0 * b ==> Trunc(a / b) == 1
  {
    if b > 0.0 {
      if a >= 0.0 {
        RemainderOfNonNegative(a, b);
      }
      if a <= 0.0 {
        RemainderOfNonPositive(a, b);
      }
      if a < b {
        QuotientBelow(a, b, 1.0);
      }
      if b <= a < 2.0 * b {
        QuotientAtLeast(a, b, 1.0);
        QuotientBelow(a, b, 2.0);
      }
    }
  }

  lemma RemainderOfNonNegative(a: real, b: real)
    requires b > 0.0 && a >= 0.0
    ensures 0.0 <= a - b * Trunc(a / b) as real < b
  {
    QuotientAtLeast(a, b, 0.0);
    QuotientTimes(a, b);
    ScaleAbove(a, b, a / b, Trunc(a / b) as real);
  }

  lemma RemainderOfNonPositive(a: real, b: real)
    requires b > 0.0 && a <= 0.0
    ensures -b < a - b * Trunc(a / b) as real <= 0.0
  {
    QuotientAtMost(a, b, 0.0);
    QuotientTimes(a, b);
    ScaleBelow(a, b, a / b, Trunc(a / b) as real);
  }

  /** If a is b times q, and q lies within one unit above t, then a lies within b above b * t. */
  lemma ScaleAbove(a: real, b: real, q: real, t: real)
    requires b > 0.0 && b * q == a && t <= q < t + 1.0
    ensures 0.0 <= a - b * t < b
  {
    var d := q - t;
    assert a == b * t + b * d;
    assert 0.0 <= b * d;
    assert b * d < b;
  }

  /** If a is b times q, and q lies within one unit below t, then a lies within b below b * t. */
  lemma ScaleBelow(a: real, b: real, q: real, t: real)
    requires b > 0.0 && b * q == a && t - 1.0 < q <= t
    ensures -b < a - b * t <= 0.0
  {
    var d := t - q;
    assert b * t == a + b * d;
    assert 0.0 <= b * d;
    assert b * d < b;
  }

  lemma QuotientTimes(a: real, b: real)
    requires b != 0.0
    ensures b * (a / b) == a
  {
  }

  lemma QuotientBelow(a: real, b: real, k: real)
    requires b > 0.0 && a < k * b
    ensures a / b < k
  {
  }

  lemma QuotientAtLeast(a: real, b: real, k: real)
    requires b > 0.0 && k * b <= a
    ensures k <= a / b
  {
  }

  lemma QuotientAtMost(a: real, b: real, k: real)
    requires b > 0.0 && a <= k * b
    ensures a / b <= k
  {
  }

  predicate IsDigit(c: char) {
    '0' <= c <= '9'
  }

  predicate AllDigits(s: string) {
    forall i :: 0 <= i < |s| ==> IsDigit(s[i])
  }

  function DigitChar(d: nat): (c: char)
    requires d < 10
    ensures IsDigit(c)
  {
    (48 + d) as char
  }

  function DigitValue(c: char): (d: nat)
    requires IsDigit(c)
    ensures d < 10
  {
    c as int - 48
  }

  /** The decimal digits of n as `Integer.toString` writes them: no sign, no leading zero. */
  function NatToDigits(n: nat): (s: string)
    ensures |s| >= 1 && AllDigits(s)
    ensures (|s| == 1) == (n < 10)
    ensures s[0] == '0' ==> n == 0
    decreases n
  {
    if n < 10 then [DigitChar(n)] else NatToDigits(n / 10) + [DigitChar(n % 10)]
  }

  /** The number a string of decimal digits denotes, read most significant digit first. */
  function DigitsValue(s: string): nat
    requires AllDigits(s)
  {
    if s == [] then 0 else 10 * DigitsValue(s[..|s| - 1]) + DigitValue(s[|s| - 1])
  }

  /** Reading back the digits of n gives n. */
  lemma {:induction false} DigitsRoundTrip(n: nat)
    ensures DigitsValue(NatToDigits(n)) == n
    decreases n
  {
    var s := NatToDigits(n);
    if n < 10 {
      assert s[..|s| - 1] == [];
    } else {
      assert s[..|s| - 1] == NatToDigits(n / 10);
      DigitsRoundTrip(n / 10);
    }
  }

  /** Java's string conversion of an `int`: a minus sign before the digits of a negative value,
      and no leading zero except in "0" itself. */
  function IntToString(i: int): (s: string)
    ensures i >= 0 ==> |s| >= 1 && AllDigits(s) && DigitsValue(s) == i
    ensures i >= 0 ==> (s[0] == '0' ==> i == 0) && (|s| == 1 <==> i < 10)
    ensures i < 0 ==> |s| >= 2 && s[0] == '-' && AllDigits(s[1..]) && DigitsValue(s[1..]) == -i
    ensures i < 0 ==> s[1] != '0'
  {
    if i >= 0 then
      DigitsRoundTrip(i);
      NatToDigits(i)
    else
      DigitsRoundTrip(-i);
      assert ("-" + NatToDigits(-i))[1..] == NatToDigits(-i);
      "-" + NatToDigits(-i)
  }
}
