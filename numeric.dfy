/**
 * The arithmetic the dashboard performs on JavaScript numbers, over exact
 * reals: `Math.round`, rounding to one decimal, and guarded percentages.
 */
module Numeric {

  /** `Math.round(x)`: the nearest integer, a half rounded towards +infinity. */
  function Round(x: real): (n: int)
    ensures x - 0.5 < n as real <= x + 0.5
  {
    (x + 0.5).Floor
  }

  /** `Math.round(x * 10) / 10`: `x` rounded to one decimal place. */
  function RoundToTenth(x: real): (r: real)
    ensures x - 0.05 < r <= x + 0.05
    ensures x >= 0.0 ==> r >= 0.0
    ensures (r * 10.0).Floor as real == r * 10.0
  {
    Round(x * 10.0) as real / 10.0
  }

  /**
   * `whole > 0 ? (part / whole) * 100 : 0`, the guarded percentage every
   * progress figure of the dashboard is computed with.
   */
  function Percent(part: real, whole: real): (p: real)
    ensures whole <= 0.0 ==> p == 0.0
    ensures 0.0 <= part <= whole ==> 0.0 <= p <= 100.0
    ensures 0.0 < whole ==> (p == 100.0 <==> part == whole)
  {
    if whole > 0.0 then part / whole * 100.0 else 0.0
  }

  lemma RoundMonotone(x: real, y: real)
    requires x <= y
    ensures Round(x) <= Round(y)
  {
  }

  /** Rounding a percentage keeps it within [0, 100]. */
  lemma RoundPercentBounds(p: real)
    requires 0.0 <= p <= 100.0
    ensures 0 <= Round(p) <= 100
  {
  }

  /** A value that already has one decimal place is not changed by rounding to one. */
  lemma RoundToTenthOfTenths(n: int)
    ensures RoundToTenth(n as real / 10.0) == n as real / 10.0
  {
    assert Round(n as real / 10.0 * 10.0) == n;
  }

  /** Rounding to one decimal keeps the order of its arguments. */
  lemma RoundToTenthMonotone(x: real, y: real)
    requires x <= y
    ensures RoundToTenth(x) <= RoundToTenth(y)
  {
    RoundMonotone(x * 10.0, y * 10.0);
  }
}
