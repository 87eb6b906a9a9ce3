/**
 * Numeric conversions whose rounding direction differs between the source
 * languages and Dafny: Python's `int(x)` on a float truncates toward zero,
 * and JavaScript's `Math.round` rounds halves up.
 */
module Numbers {

  /** Python `int(x)` for a float `x`: the integer part, truncated toward zero. */
  function Trunc(x: real): (n: int)
    ensures x >= 0.0 ==> n as real <= x < n as real + 1.0
    ensures x < 0.0 ==> n as real - 1.0 < x <= n as real
  {
    if x >= 0.0 then x.Floor else -((-x).Floor)
  }

  /** Truncation never moves a value away from zero and is odd-symmetric. */
  lemma TruncSymmetric(x: real)
    ensures Trunc(-x) == -Trunc(x)
    ensures -1.0 < x < 1.0 ==> Trunc(x) == 0
  {
  }

  /** Truncation is monotone. */
  lemma TruncMonotone(x: real, y: real)
    requires x <= y
    ensures Trunc(x) <= Trunc(y)
  {
  }

  /** Python `int((a + b) / 2)` for integers: the midpoint truncated toward zero. */
  function Midpoint(a: int, b: int): (m: int)
    ensures a + b >= 0 ==> m == (a + b) / 2
    ensures a + b < 0 ==> m == -((-(a + b)) / 2)
  {
    Trunc((a + b) as real / 2.0)
  }

  /** The midpoint lies between its two arguments. */
  lemma MidpointBetween(a: int, b: int)
    ensures a <= b ==> a <= Midpoint(a, b) <= b
    ensures b <= a ==> b <= Midpoint(a, b) <= a
  {
  }

  /** JavaScript `Math.round(x)`: the nearest integer, halves rounded up. */
  function JsRound(x: real): (n: int)
    ensures n as real - 0.5 <= x < n as real + 0.5
  {
    (x + 0.5).Floor
  }

  /** `Math.round` is the only integer within half a unit below and above. */
  lemma JsRoundUnique(x: real, n: int)
    requires n as real - 0.5 <= x < n as real + 0.5
    ensures JsRound(x) == n
  {
  }

  /** `Math.round` is monotone. */
  lemma JsRoundMonotone(x: real, y: real)
    requires x <= y
    ensures JsRound(x) <= JsRound(y)
  {
  }

  function Max(a: int, b: int): int
  {
    if a >= b then a else b
  }

  function Min(a: int, b: int): int
  {
    if a <= b then a else b
  }

  function MaxReal(a: real, b: real): real
  {
    if a >= b then a else b
  }

  /** A ratio of a part to a positive whole, scaled to 100, lies between 0 and 100. */
  lemma PercentageBounds(a: real, part: real, whole: real)
    requires whole > 0.0 && 0.0 <= part <= whole && a * whole == part * 100.0
    ensures 0.0 <= a <= 100.0
  {
  }

  /** A part of a positive whole is at most the whole: as a percentage, between 0 and 100. */
  lemma QuotientPercentBounds(part: real, whole: real)
    requires whole > 0.0 && 0.0 <= part <= whole
    ensures 0.0 <= part / whole * 100.0 <= 100.0
  {
    var q := part / whole;
    assert q * whole == part;
    PercentageBounds(q * 100.0, part, whole);
  }
}
