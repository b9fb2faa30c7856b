/** Math.round: to the nearest integer, halves upward. */
module Rounding {

  function RoundHalfUp(x: real): int {
    (x + 0.5).Floor
  }

  lemma RoundHalfUpIsClose(x: real)
    ensures -0.5 <= RoundHalfUp(x) as real - x <= 0.5
  {
    var shifted := x + 0.5;
    assert shifted - 1.0 < shifted.Floor as real <= shifted;
  }

  /** Rounding does not step over an integer. */
  lemma RoundHalfUpStaysWithin(x: real, low: int, high: int)
    requires low as real <= x <= high as real
    ensures low <= RoundHalfUp(x) <= high
  {
    RoundHalfUpIsClose(x);
  }
}
