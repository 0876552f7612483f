/**
 * Python's `round(x, 2)` and the guarded division the aggregator uses for
 * every average.  Values are exact reals: the binary floating-point
 * representation Python rounds is not modelled, the tie rule (to even) is.
 */
module Rounding {

  /** `round(x, 2)`: the nearest multiple of 0.01, ties to the even hundredth. */
  function Round2(x: real): (r: real)
    ensures -1.0 / 200.0 <= r - x <= 1.0 / 200.0
    ensures (r * 100.0).Floor as real == r * 100.0
  {
    var y := x * 100.0;
    var f := y.Floor;
    var frac := y - f as real;
    var n := if frac > 0.5 then f + 1
             else if frac < 0.5 then f
             else if f % 2 == 0 then f
             else f + 1;
    n as real / 100.0
  }

  /** A value already on the hundredths grid is left as it is. */
  lemma Round2OnGrid(n: int)
    ensures Round2(n as real / 100.0) == n as real / 100.0
  {
    var y := (n as real / 100.0) * 100.0;
    assert y == n as real;
    assert y.Floor == n;
  }

  /**
   * `round(total / count, 2) if count > 0 else 0.0`: the average the
   * aggregator reports for one metric, given the one shared denominator.
   */
  function Average(total: real, count: nat): (r: real)
    ensures count == 0 ==> r == 0.0
    ensures count > 0 ==> -1.0 / 200.0 <= r - total / count as real <= 1.0 / 200.0
  {
    if count > 0 then Round2(total / count as real) else 0.0
  }
}
