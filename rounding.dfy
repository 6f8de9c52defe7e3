/** The two ways the page turns a real number into a whole pixel or byte count. */
module Rounding {

  /** JavaScript's `Math.round`: the integer nearest to `x`, a tie going up (towards +infinity). */
  function Round(x: real): (r: int)
    ensures x - 0.5 < r as real <= x + 0.5
  {
    (x + 0.5).Floor
  }

  /** Assigning a non-negative number to a canvas's `width` or `height` keeps its integer part. */
  function Truncate(x: real): (r: int)
    requires x >= 0.0
    ensures 0 <= r && r as real <= x < r as real + 1.0
  {
    x.Floor
  }

  lemma RoundMonotone(x: real, y: real)
    requires x <= y
    ensures Round(x) <= Round(y)
  {
  }
}
