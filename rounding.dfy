/**
 * numpy's `floor` and `ceil`, taken on exact reals. The ledger keeps its cash
 * as a whole number because every amount added to or taken from it passes
 * through one of these two functions (or is an integer salary).
 */
module Rounding {

  /** The greatest integer not above `x` (numpy.floor). */
  function Floor(x: real): (r: int)
    ensures r as real <= x < r as real + 1.0
  {
    x.Floor
  }

  /** The least integer not below `x` (numpy.ceil). */
  function Ceil(x: real): (r: int)
    ensures r as real - 1.0 < x <= r as real
  {
    -((-x).Floor)
  }

  /** Rounding up never gives less than rounding down, and the two differ by at most one. */
  lemma FloorCeilGap(x: real)
    ensures Floor(x) <= Ceil(x) <= Floor(x) + 1
  {
  }

  /** An integer bounds `Ceil(x)` from above exactly when it bounds `x`. */
  lemma CeilAtMost(x: real, k: int)
    ensures Ceil(x) <= k <==> x <= k as real
  {
  }

  /** An integer bounds `Floor(x)` from below exactly when it bounds `x`. */
  lemma FloorAtLeast(x: real, k: int)
    ensures k <= Floor(x) <==> k as real <= x
  {
  }

  /**
   * For a positive divisor, `m` lies at or below `f / p` exactly when
   * `m * p` lies at or below `f`.
   */
  lemma BelowQuotient(m: real, f: real, p: real)
    requires p > 0.0
    ensures m <= f / p <==> m * p <= f
  {
    var q := f / p;
    assert q * p == f;
    if m <= q {
      assert m * p <= q * p;
    } else {
      assert m * p > q * p;
    }
  }
}
