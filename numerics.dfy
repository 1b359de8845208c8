/**
 * The two CGFloat-to-Int conversions the document controller relies on,
 * stated over exact `real` arithmetic (floating-point error is not modelled).
 */
module Numerics {

  /** Swift's `Int(x)` for a finite CGFloat `x`: truncation toward zero. */
  function Truncate(x: real): (n: int)
    ensures 0.0 <= x ==> n as real <= x < n as real + 1.0
    ensures x < 0.0 ==> n as real - 1.0 < x <= n as real
  {
    if 0.0 <= x then x.Floor else -((-x).Floor)
  }

  /**
   * `Int(x.rounded(.toNearestOrAwayFromZero))`: the nearest integer, and on a
   * tie the one farther from zero.
   */
  function RoundHalfAwayFromZero(x: real): (n: int)
    ensures n as real - 0.5 <= x <= n as real + 0.5
    ensures x == n as real + 0.5 ==> x < 0.0
    ensures x == n as real - 0.5 ==> 0.0 < x
  {
    if 0.0 <= x then (x + 0.5).Floor else -((-x + 0.5).Floor)
  }

  /** Truncation never moves a value away from zero, and is exact on integers. */
  lemma TruncateTowardZero(x: real, k: int)
    ensures Truncate(x) == 0 <==> -1.0 < x < 1.0
    ensures Truncate(k as real) == k
  {
  }

  /** The scaling examples: 40 * 1.5 = 60, 3 * 1.5 = 4.5 rounds to 5, and -4.5 rounds to -5. */
  lemma RoundingExamples()
    ensures RoundHalfAwayFromZero(40.0 * 1.5) == 60
    ensures RoundHalfAwayFromZero(3.0 * 1.5) == 5
    ensures RoundHalfAwayFromZero(-4.5) == -5
    ensures RoundHalfAwayFromZero(80.0 * 2.0) == 160
  {
  }

  /** Rounding an exact integer gives it back: scaling by 1.0 keeps the size. */
  lemma RoundIntegerIsIdentity(k: int)
    ensures RoundHalfAwayFromZero(k as real) == k
  {
  }
}
