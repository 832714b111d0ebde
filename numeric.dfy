/** Exact numbers standing in for JavaScript numbers, and `Math.ceil`. */
module Numeric {

  /** The result of `parseFloat` / `parseInt`: `None` is NaN. */
  datatype Option<+T> = None | Some(value: T)

  /** `Math.ceil` over exact reals: the least integer not below `x`. */
  function Ceil(x: real): (r: int)
    ensures x <= r as real < x + 1.0
  {
    -((-x).Floor)
  }

  /** `Math.ceil` is the least integer at or above `x`: every integer bound dominates it. */
  lemma CeilIsLeast(x: real, n: int)
    requires x <= n as real
    ensures Ceil(x) <= n
  {
  }

  /**
   * The ceiling of a quotient by a positive divisor is the least integer
   * whose product with the divisor covers the dividend.
   */
  lemma CeilOfQuotient(dividend: real, divisor: real)
    requires divisor > 0.0
    ensures Ceil(dividend / divisor) as real * divisor >= dividend
    ensures (Ceil(dividend / divisor) - 1) as real * divisor < dividend
  {
    var q := dividend / divisor;
    assert q * divisor == dividend;
    var above := Ceil(q) as real;
    var below := (Ceil(q) - 1) as real;
    assert (above - q) * divisor >= 0.0;
    assert (q - below) * divisor > 0.0;
    assert (q - below) * divisor == q * divisor - below * divisor;
    assert below * divisor < dividend;
  }
}
