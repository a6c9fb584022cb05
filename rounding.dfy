/**
 * `parseFloat(x.toFixed(2))`, the rounding applied to the VAT estimate,
 * taken on exact reals rather than binary floating point.
 */
module Rounding {

  /**
   * `parseFloat(x.toFixed(2))` on exact reals: within half a hundredth of
   * `x`, a half going away from zero (see Round2IsWholeHundredths for the
   * result being a multiple of 0.01).
   */
  function Round2(x: real): (r: real)
    ensures x >= 0.0 ==> x - 0.005 < r <= x + 0.005
    ensures x < 0.0 ==> x - 0.005 <= r < x + 0.005
  {
    if x >= 0.0 then HalfUp(x * 100.0) as real / 100.0
    else -(HalfUp(-x * 100.0) as real / 100.0)
  }

  /**
   * Rounding gives a multiple of 0.01; with the bounds of Round2 it is the
   * nearest one.
   */
  lemma Round2IsWholeHundredths(x: real)
    ensures (Round2(x) * 100.0).Floor as real == Round2(x) * 100.0
  {
    if x >= 0.0 {
      IntegerHundredths(HalfUp(x * 100.0));
    } else {
      IntegerHundredths(-HalfUp(-x * 100.0));
    }
  }

  /** The integer nearest to `y`, halves rounded up. */
  function HalfUp(y: real): (n: int)
    ensures y - 0.5 < n as real <= y + 0.5
  {
    (y + 0.5).Floor
  }

  lemma IntegerHundredths(n: int)
    ensures ((n as real / 100.0) * 100.0).Floor == n
  {
    assert (n as real / 100.0) * 100.0 == n as real;
  }

  /** Values already on a hundredth are left alone; 21.9989 becomes 22.00. */
  lemma Round2Examples()
    ensures Round2(22.0) == 22.0
    ensures Round2(21.9989) == 22.0
    ensures Round2(0.125) == 0.13 && Round2(-0.125) == -0.13
  {
  }
}
