/**
 * Critical values and symmetric bounds (src/stats.rs). The inverse CDFs of
 * Student's t and of the normal distribution come from `Numerics`; both are
 * read at the confidence's quantile.
 */
module Stats {
  import opened Numerics
  import opened Confidences

  /** Above this many degrees of freedom the normal distribution replaces Student's t. */
  const PopulationLimit: real := 100000.0

  /** `z_value`. */
  function ZValue(num: Numerics, c: Confidence): (r: real)
    ensures Sound(num) && ValidLevel(c.level) && c.TwoSided? ==> 0.0 < r
  {
    num.zInv(c.Quantile())
  }

  /** `t_value`. */
  function TValue(num: Numerics, c: Confidence, dof: real): (r: real)
    ensures Sound(num) && ValidLevel(c.level) && c.TwoSided? && 0.0 < dof ==> 0.0 < r
  {
    num.tInv(c.Quantile(), dof)
  }

  /**
   * `interval_bounds`: `mean` minus and plus a span of critical value times
   * standard error, with Student's t below `PopulationLimit` degrees of
   * freedom and the normal distribution from there on.
   */
  function IntervalBounds(num: Numerics, c: Confidence, mean: real, sem: real, dof: real): (r: (real, real))
    ensures r.0 + r.1 == 2.0 * mean
    ensures dof < PopulationLimit ==> r.1 - mean == TValue(num, c, dof) * sem
    ensures dof >= PopulationLimit ==> r.1 - mean == ZValue(num, c) * sem
  {
    var span := if dof < PopulationLimit then TValue(num, c, dof) * sem else ZValue(num, c) * sem;
    (mean - span, mean + span)
  }

  /** Confidences with the same quantile give the same bounds. */
  lemma SameQuantileSameBounds(num: Numerics, c1: Confidence, c2: Confidence, mean: real, sem: real, dof: real)
    requires c1.Quantile() == c2.Quantile()
    ensures IntervalBounds(num, c1, mean, sem, dof) == IntervalBounds(num, c2, mean, sem, dof)
  {
    var r1, r2 := IntervalBounds(num, c1, mean, sem, dof), IntervalBounds(num, c2, mean, sem, dof);
    if dof < PopulationLimit {
      assert TValue(num, c1, dof) == TValue(num, c2, dof);
    } else {
      assert ZValue(num, c1) == ZValue(num, c2);
    }
    assert r1.1 == r2.1;
    assert r1.0 == r2.0;
  }

  /** With a non-negative critical value and standard error, the bounds are ordered. */
  lemma BoundsOrdered(num: Numerics, c: Confidence, mean: real, sem: real, dof: real)
    requires 0.0 <= sem
    requires dof < PopulationLimit ==> 0.0 <= TValue(num, c, dof)
    requires dof >= PopulationLimit ==> 0.0 <= ZValue(num, c)
    ensures IntervalBounds(num, c, mean, sem, dof).0 <= IntervalBounds(num, c, mean, sem, dof).1
  {
    var span := IntervalBounds(num, c, mean, sem, dof).1 - mean;
    assert 0.0 <= span;
  }

  /** In particular for a valid two-sided confidence. */
  lemma TwoSidedBoundsOrdered(num: Numerics, c: Confidence, mean: real, sem: real, dof: real)
    requires Sound(num) && c.TwoSided? && ValidLevel(c.level) && 0.0 <= sem && 0.0 < dof
    ensures IntervalBounds(num, c, mean, sem, dof).0 <= IntervalBounds(num, c, mean, sem, dof).1
  {
    BoundsOrdered(num, c, mean, sem, dof);
  }
}
