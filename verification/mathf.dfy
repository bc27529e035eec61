/** Rounding as the plugin uses it. The engine's round-to-integer routine is not part of
    this model; all the model relies on is that it lands within one half of its argument,
    so no midpoint rule is fixed here. */
module Mathf {

  /** `round` is a rounding to the nearest integer, ties broken in any way. */
  ghost predicate IsRoundToInt(round: real -> int) {
    forall x: real :: x - 0.5 <= round(x) as real <= x + 0.5
  }

  /** Rounding a whole number gives that number back. */
  lemma RoundOfWhole(round: real -> int, n: int)
    requires IsRoundToInt(round)
    ensures round(n as real) == n
  {
    assert n as real - 0.5 <= round(n as real) as real <= n as real + 0.5;
  }

  /** A value less than half a unit above `n` rounds to at most `n`. */
  lemma RoundAtMost(round: real -> int, x: real, n: int)
    requires IsRoundToInt(round)
    requires x < n as real + 0.5
    ensures round(x) <= n
  {
    assert round(x) as real <= x + 0.5;
  }

  /** A value less than half a unit below `n` rounds to at least `n`. */
  lemma RoundAtLeast(round: real -> int, x: real, n: int)
    requires IsRoundToInt(round)
    requires n as real - 0.5 < x
    ensures n <= round(x)
  {
    assert x - 0.5 <= round(x) as real;
  }

  /** Rounding half of a whole number `d` gives `k` with `2k` within one of `d`. */
  lemma RoundHalf(round: real -> int, d: int)
    requires IsRoundToInt(round)
    ensures -1 <= 2 * round(d as real * 0.5) - d <= 1
  {
    var k := round(d as real * 0.5);
    assert d as real * 0.5 - 0.5 <= k as real <= d as real * 0.5 + 0.5;
  }
}
