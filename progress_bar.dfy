/** The progress bar, src/components/ui/Progress.tsx: the value drawn is clamped to [0, 100]. */
module ProgressBar {

  /** `Math.min(Math.max(value, 0), 100)`. */
  function Clamp(value: real): (c: real)
    ensures 0.0 <= c <= 100.0
    ensures 0.0 <= value <= 100.0 ==> c == value
    ensures value <= 0.0 ==> c == 0.0
    ensures value >= 100.0 ==> c == 100.0
  {
    var atLeastZero := if value > 0.0 then value else 0.0;
    if atLeastZero < 100.0 then atLeastZero else 100.0
  }

  /** Clamping a clamped value changes nothing. */
  lemma ClampIdempotent(value: real)
    ensures Clamp(Clamp(value)) == Clamp(value)
  {
  }

  /** A larger value never draws a shorter bar. */
  lemma ClampMonotone(x: real, y: real)
    requires x <= y
    ensures Clamp(x) <= Clamp(y)
  {
  }
}
