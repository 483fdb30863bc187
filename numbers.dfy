/**
 * Real-number stand-ins for the numeric built-ins the source relies on:
 * JavaScript's Math.round, Math.min/Math.max, Math.abs and the % operator,
 * and Python's round() and int(). Values are exact reals; IEEE-754 doubles
 * are not modelled.
 */
module Numbers {

  function Min(a: real, b: real): real { if a <= b then a else b }

  function Max(a: real, b: real): real { if a >= b then a else b }

  function Abs(x: real): real { if x < 0.0 then -x else x }

  /** JavaScript Math.round: the nearest integer, a tie going toward +infinity. */
  function JsRound(x: real): (n: int)
    ensures x - 0.5 < n as real <= x + 0.5
  {
    (x + 0.5).Floor
  }

  /** Math.round(x * 10) / 10 */
  function Round1(x: real): real { JsRound(x * 10.0) as real / 10.0 }

  /** Math.round(x * 100) / 100 */
  function Round2(x: real): real { JsRound(x * 100.0) as real / 100.0 }

  /** Math.round(x * 1000) / 1000 */
  function Round3(x: real): real { JsRound(x * 1000.0) as real / 1000.0 }

  /** x is a whole number of tenths. */
  predicate WholeTenths(x: real) { (x * 10.0).Floor as real == x * 10.0 }

  /** x is a whole number of hundredths. */
  predicate WholeHundredths(x: real) { (x * 100.0).Floor as real == x * 100.0 }

  /** x is a whole number of thousandths. */
  predicate WholeThousandths(x: real) { (x * 1000.0).Floor as real == x * 1000.0 }

  /** Python's round(x) on an exact value: the nearest integer, a tie going to the even one. */
  function RoundHalfEven(x: real): (n: int)
    ensures x - 0.5 <= n as real <= x + 0.5
    ensures (n as real == x - 0.5 || n as real == x + 0.5) ==> n % 2 == 0
  {
    var f := x.Floor;
    var frac := x - f as real;
    if frac < 0.5 then f
    else if frac > 0.5 then f + 1
    else if f % 2 == 0 then f
    else f + 1
  }

  /** Python round(x, 2) */
  function PyRound2(x: real): real { RoundHalfEven(x * 100.0) as real / 100.0 }

  /** Python round(x, 4) */
  function PyRound4(x: real): real { RoundHalfEven(x * 10000.0) as real / 10000.0 }

  /** Python int(x) on a float, and JavaScript's truncation: toward zero. */
  function Trunc(x: real): (n: int)
    ensures Abs(n as real) <= Abs(x) < Abs(n as real) + 1.0
    ensures (x >= 0.0 ==> n >= 0) && (x <= 0.0 ==> n <= 0)
  {
    if x >= 0.0 then x.Floor else -((-x).Floor)
  }

  /** JavaScript x % y on numbers: the remainder of the quotient truncated toward zero. */
  function JsRem(x: real, y: real): real
    requires y != 0.0
  {
    x - y * Trunc(x / y) as real
  }

  lemma Round2IsHundredths(x: real)
    ensures WholeHundredths(Round2(x))
  {
    var n := JsRound(x * 100.0);
    assert Round2(x) * 100.0 == n as real;
  }

  lemma Round1IsTenths(x: real)
    ensures WholeTenths(Round1(x))
  {
    var n := JsRound(x * 10.0);
    assert Round1(x) * 10.0 == n as real;
  }

  lemma Round3IsThousandths(x: real)
    ensures WholeThousandths(Round3(x))
  {
    var n := JsRound(x * 1000.0);
    assert Round3(x) * 1000.0 == n as real;
  }

  /** Rounding to hundredths never crosses a bound that is itself a whole number of hundredths. */
  lemma Round2Below(x: real, c: real)
    requires WholeHundredths(c) && x <= c
    ensures Round2(x) <= c
  {
    var k := (c * 100.0).Floor;
    var n := JsRound(x * 100.0);
    assert x * 100.0 <= k as real;
    assert n as real <= x * 100.0 + 0.5;
    assert n <= k;
    assert Round2(x) == n as real / 100.0;
  }

  lemma Round2Above(x: real, c: real)
    requires WholeHundredths(c) && c <= x
    ensures c <= Round2(x)
  {
    var k := (c * 100.0).Floor;
    var n := JsRound(x * 100.0);
    assert k as real <= x * 100.0;
    assert x * 100.0 - 0.5 < n as real;
    assert k <= n;
    assert Round2(x) == n as real / 100.0;
  }

  /** A whole number of hundredths is a fixed point of Round2. */
  lemma Round2Fixed(c: real)
    requires WholeHundredths(c)
    ensures Round2(c) == c
  {
    Round2Below(c, c);
    Round2Above(c, c);
  }

  lemma Round1Below(x: real, c: real)
    requires WholeTenths(c) && x <= c
    ensures Round1(x) <= c
  {
    var k := (c * 10.0).Floor;
    var n := JsRound(x * 10.0);
    assert x * 10.0 <= k as real;
    assert n as real <= x * 10.0 + 0.5;
    assert n <= k;
    assert Round1(x) == n as real / 10.0;
  }

  lemma Round1Above(x: real, c: real)
    requires WholeTenths(c) && c <= x
    ensures c <= Round1(x)
  {
    var k := (c * 10.0).Floor;
    var n := JsRound(x * 10.0);
    assert k as real <= x * 10.0;
    assert x * 10.0 - 0.5 < n as real;
    assert k <= n;
    assert Round1(x) == n as real / 10.0;
  }

  // ---------------------------------------------------------------- products

  /** A quotient of a non-negative number by a larger positive one lies in [0, 1]. */
  lemma QuotientInUnit(a: real, b: real)
    requires 0.0 <= a <= b && 0.0 < b
    ensures 0.0 <= a / b <= 1.0
  {
  }

  lemma ProductNonNegative(x: real, y: real)
    requires 0.0 <= x && 0.0 <= y
    ensures 0.0 <= x * y
  {
  }

  /** Scaling a non-negative x by a factor at most 1 does not increase it. */
  lemma ProductAtMost(x: real, y: real)
    requires 0.0 <= x && y <= 1.0
    ensures x * y <= x
  {
    assert x - x * y == x * (1.0 - y);
  }

  /** p + (q - p) * f stays in [p, q] for a factor f in [0, 1]. */
  lemma StepBetween(p: real, q: real, f: real)
    requires p <= q && 0.0 <= f <= 1.0
    ensures p <= p + (q - p) * f
    ensures p + (q - p) * f <= q
  {
    ProductNonNegative(q - p, f);
    ProductAtMost(q - p, f);
  }

  /** x lies between a and b, whichever is larger. */
  predicate Between(x: real, a: real, b: real)
  {
    (a <= x && x <= b) || (b <= x && x <= a)
  }

  lemma LerpDown(a: real, b: real, t: real)
    requires 0.0 <= t <= 1.0 && b < a
    ensures b <= a + (b - a) * t
    ensures a + (b - a) * t <= a
  {
    StepBetween(b, a, 1.0 - t);
    assert a + (b - a) * t == b + (a - b) * (1.0 - t);
  }

  /** Linear interpolation with t in [0, 1] stays between its ends. */
  lemma LerpBetween(a: real, b: real, t: real)
    requires 0.0 <= t <= 1.0
    ensures Between(a + (b - a) * t, a, b)
  {
    if a <= b {
      StepBetween(a, b, t);
    } else {
      LerpDown(a, b, t);
    }
  }
}
