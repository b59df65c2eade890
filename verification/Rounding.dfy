/** Go's math.Round on exact reals: to the nearest integer, halves away from zero. */
module Rounding {
  function Round(x: real): int {
    if x >= 0.0 then (x + 0.5).Floor else -((-x + 0.5).Floor)
  }

  /** The result is a nearest integer, and a half is rounded away from zero. */
  lemma RoundIsNearest(x: real)
    ensures -0.5 <= x - Round(x) as real <= 0.5
    ensures x - Round(x) as real == 0.5 ==> x < 0.0
    ensures Round(x) as real - x == 0.5 ==> x > 0.0
  {
  }

  lemma RoundOfInt(n: int)
    ensures Round(n as real) == n
  {
  }

  lemma RoundMonotone(x: real, y: real)
    requires x <= y
    ensures Round(x) <= Round(y)
  {
  }

  lemma RatioInUnit(x: real, max: real)
    requires 0.0 <= x <= max && max > 0.0
    ensures 0.0 <= x / max <= 1.0
  {
    var q := x / max;
    assert q * max == x;
    assert q < 0.0 ==> q * max < 0.0;
    assert q > 1.0 ==> q * max > max;
  }
}
