/**
 * Comparing two samples (src/comparison.rs): the paired comparison keeps one
 * `Arithmetic` register of the differences a_i - b_i; the unpaired
 * comparison keeps one register per sample and combines their means and
 * variances with its own degrees-of-freedom formula.
 */
module Comparison {
  import opened Wrappers
  import opened Errors
  import opened Numerics
  import opened Intervals
  import Confidences
  import Critical = Stats
  import opened Mean

  /* --------------------------------------------------------------- paired */

  /** The differences a_i - b_i over the common prefix of a and b. */
  function Diffs(a: seq<real>, b: seq<real>): (d: seq<real>)
    ensures |d| == if |a| <= |b| then |a| else |b|
    ensures forall i :: 0 <= i < |d| ==> d[i] == a[i] - b[i]
  {
    seq(if |a| <= |b| then |a| else |b|, i requires 0 <= i < |a| && i < |b| => a[i] - b[i])
  }

  /** The differences x - y of a sequence of pairs, as `extend_tuple` maps them. */
  function PairDiffs(pairs: seq<(real, real)>): (d: seq<real>)
    ensures |d| == |pairs| && forall i :: 0 <= i < |pairs| ==> d[i] == pairs[i].0 - pairs[i].1
  {
    seq(|pairs|, i requires 0 <= i < |pairs| => pairs[i].0 - pairs[i].1)
  }

  /** `Paired`: one register of the pairwise differences. */
  class Paired {
    const stats: Arithmetic

    function Value(): Moments
      reads stats
    {
      stats.Value()
    }

    /** `Paired::default()`. */
    constructor ()
      ensures fresh(stats) && Value() == Empty
    {
      stats := new Arithmetic();
    }

    /** `append` (from `StatisticsOps`): delegated to the register. */
    method Append(x: real) returns (r: Result<(), CIError>)
      modifies stats
      ensures r.Ok? && Value() == Push(old(Value()), x)
    {
      r := stats.Append(x);
    }

    /** `append_pair`: appends the difference of the pair. */
    method AppendPair(a: real, b: real) returns (r: Result<(), CIError>)
      modifies stats
      ensures r.Ok? && Value() == Push(old(Value()), a - b)
    {
      r := Append(a - b);
    }

    /** `extend_tuple`: extends the register with the differences of the pairs. */
    method ExtendTuple(pairs: seq<(real, real)>) returns (r: Result<(), CIError>)
      modifies stats
      ensures r.Ok? && Value() == Absorb(old(Value()), PairDiffs(pairs))
    {
      r := stats.Extend(PairDiffs(pairs));
    }

    /**
     * `extend`: walks both samples in step, appending each difference. When
     * one sample runs out first it reports both lengths, and the
     * differences of the common prefix stay appended.
     */
    method Extend(a: seq<real>, b: seq<real>) returns (r: Result<(), CIError>)
      modifies stats
      ensures |a| == |b| ==> r.Ok?
      ensures |a| != |b| ==> r == Err(DifferentSampleSizes(|a|, |b|))
      ensures Value() == Absorb(old(Value()), Diffs(a, b))
    {
      var count := 0;
      while count < |a| && count < |b|
        invariant count <= |a| && count <= |b|
        invariant Value() == Absorb(old(Value()), Diffs(a, b)[..count])
      {
        assert Diffs(a, b)[..count + 1][..count] == Diffs(a, b)[..count];
        var _ := Append(a[count] - b[count]);
        count := count + 1;
      }
      assert Diffs(a, b)[..count] == Diffs(a, b);
      if count == |a| && count == |b| {
        r := Ok(());
      } else if count == |a| {
        r := Err(DifferentSampleSizes(count, |b|));
      } else {
        r := Err(DifferentSampleSizes(|a|, count));
      }
    }

    /** `ci_mean` (from `StatisticsOps`): the register's interval for the mean difference. */
    function CiMean(num: Numerics, conf: Confidences.Confidence): (r: Result<Interval<real>, CIError>)
      reads stats
      requires Sound(num)
      ensures r == Mean.CiMeanChecked(num, Value(), conf)
      ensures Value().count < 2 <==> r == Err(TooFewSamples(Value().count))
      ensures r.Ok? && r.value.TwoSided? ==> r.value.low + r.value.high == 2.0 * SampleMean(Value())
    {
      Mean.CiMeanChecked(num, Value(), conf)
    }

    /** `Paired + Paired`: the registers merge. */
    static method Add(a: Paired, b: Paired) returns (r: Paired)
      ensures fresh(r) && fresh(r.stats)
      ensures r.Value() == Merge(a.Value(), b.Value())
    {
      var merged := Merge(a.Value(), b.Value());
      r := new Paired();
      r.stats.count, r.stats.sum, r.stats.sumSq := merged.count, merged.sum, merged.sumSq;
    }
  }

  /**
   * `paired_ci` (and `Paired::ci`): extends a fresh register with the
   * differences, then asks for the interval of their mean.
   */
  method PairedCi(num: Numerics, conf: Confidences.Confidence, a: seq<real>, b: seq<real>) returns (r: Result<Interval<real>, CIError>)
    requires Sound(num)
    ensures |a| != |b| ==> r == Err(DifferentSampleSizes(|a|, |b|))
    ensures |a| == |b| ==> r == Mean.CiMeanChecked(num, FromSeq(Diffs(a, b)), conf)
  {
    var stats := new Paired();
    var res := stats.Extend(a, b);
    if res.Err? {
      return Err(res.error);
    }
    assert stats.Value() == FromSeq(Diffs(a, b));
    r := stats.CiMean(num, conf);
  }

  /**
   * The paired interval, for a confidence whose quantile lies in (1/2, 1),
   * exists and holds the mean of the differences.
   */
  lemma PairedCiHoldsMeanDifference(num: Numerics, conf: Confidences.Confidence, a: seq<real>, b: seq<real>)
    requires Sound(num) && |a| == |b| && 2 <= |a| && 0.5 < conf.Quantile() < 1.0
    ensures FromSeq(Diffs(a, b)).count >= 2
    ensures Mean.CiMeanChecked(num, FromSeq(Diffs(a, b)), conf).Ok?
    ensures Contains(Mean.CiMeanChecked(num, FromSeq(Diffs(a, b)), conf).value, SampleMean(FromSeq(Diffs(a, b))))
  {
    CiMeanContainsMean(num, Diffs(a, b), conf);
  }

  /* ------------------------------------------------------------- unpaired */

  /** The standard error sqrt(s_a²/n_a + s_b²/n_b) of the difference of the means. */
  function DiffSem(num: Numerics, a: Moments, b: Moments): (r: real)
    requires a.count >= 2 && b.count >= 2
    ensures Sound(num) && 0.0 <= SampleVariance(a) && 0.0 <= SampleVariance(b) ==> 0.0 <= r
  {
    var sdA, sdB := SampleStdDev(num, a), SampleStdDev(num, b);
    var saNa := sdA * sdA / a.count as real;
    var sbNb := sdB * sdB / b.count as real;
    assert Sound(num) && 0.0 <= SampleVariance(a) && 0.0 <= SampleVariance(b) ==> 0.0 <= saNa + sbNb by {
      if Sound(num) && 0.0 <= SampleVariance(a) && 0.0 <= SampleVariance(b) {
        SquareShareNonNegative(sdA, a.count as real);
        SquareShareNonNegative(sdB, b.count as real);
      }
    }
    num.sqrt(saNa + sbNb)
  }

  lemma SquareShareNonNegative(s: real, n: real)
    requires 0.0 < n
    ensures 0.0 <= s * s / n
  {
    assert 0.0 <= s * s;
  }

  /** s²/n is never negative, and it is 0 exactly when s is. */
  lemma ShareZeroIffZero(s: real, n: real)
    requires 0.0 < n
    ensures 0.0 <= s * s / n
    ensures s == 0.0 <==> s * s / n == 0.0
  {
    SquareShareNonNegative(s, n);
    if s != 0.0 {
      SquareSharePositive(s, n);
    }
  }

  /** s²/n is positive for s != 0; the two signs go through products of distinct factors. */
  lemma SquareSharePositive(x: real, n: real)
    requires x != 0.0 && 0.0 < n
    ensures 0.0 < x * x / n
  {
    if x < 0.0 {
      NegativesSharePositive(x, x, n);
    } else {
      PositivesSharePositive(x, x, n);
    }
  }

  lemma PositivesSharePositive(x: real, y: real, n: real)
    requires 0.0 < x && 0.0 < y && 0.0 < n
    ensures 0.0 < x * y / n
  {
    QuotientPositive(x * y, n);
  }

  lemma NegativesSharePositive(x: real, y: real, n: real)
    requires x < 0.0 && y < 0.0 && 0.0 < n
    ensures 0.0 < x * y / n
  {
    QuotientPositive(x * y, n);
  }

  /**
   * The degrees of freedom of the unpaired comparison, as the source writes
   * them: (s_a²/n_a + s_b²/n_b)² / ((s_a²/n_a)²/(n_a+1) + (s_b²/n_b)²/(n_b+1)) - 2.
   * When both variances vanish the quotient is 0/0, whose comparisons are
   * all false; `None` stands for that value.
   */
  function DiffDof(num: Numerics, a: Moments, b: Moments): (r: Option<real>)
    requires a.count >= 2 && b.count >= 2
    ensures SampleStdDev(num, a) == 0.0 && SampleStdDev(num, b) == 0.0 ==> r.None?
    ensures SampleStdDev(num, a) != 0.0 || SampleStdDev(num, b) != 0.0 ==> r.Some?
    ensures r.Some? ==> 1.0 <= r.value
  {
    var sdA, sdB := SampleStdDev(num, a), SampleStdDev(num, b);
    var na, nb := a.count as real, b.count as real;
    ShareZeroIffZero(sdA, na);
    ShareZeroIffZero(sdB, nb);
    WelchDof(sdA * sdA / na, sdB * sdB / nb, na, nb)
  }

  /**
   * The Welch formula on the shares x = s_a²/n_a and y = s_b²/n_b:
   * (x + y)² / (x²/(n_a+1) + y²/(n_b+1)) - 2, or `None` for 0/0. With at
   * least two values per sample it is at least 1: each x²/(n+1) is at most
   * x²/3, so the denominator is at most (x² + y²)/3 <= (x + y)²/3.
   */
  function WelchDof(x: real, y: real, na: real, nb: real): (r: Option<real>)
    requires 0.0 <= x && 0.0 <= y && 2.0 <= na && 2.0 <= nb
    ensures r.None? <==> x == 0.0 && y == 0.0
    ensures r.Some? ==> 1.0 <= r.value
  {
    var denominator := x * x / (na + 1.0) + y * y / (nb + 1.0);
    ShareZeroIffZero(x, na + 1.0);
    ShareZeroIffZero(y, nb + 1.0);
    if denominator == 0.0 then None
    else Some(WelchValue(x, y, na, nb, denominator))
  }

  /** The value of the Welch formula once its denominator is known to be positive. */
  function WelchValue(x: real, y: real, na: real, nb: real, den: real): (v: real)
    requires 0.0 <= x && 0.0 <= y && 2.0 <= na && 2.0 <= nb
    requires den == x * x / (na + 1.0) + y * y / (nb + 1.0) && 0.0 < den
    ensures 1.0 <= v
  {
    WelchBound(x, y, na, nb, den);
    (x + y) * (x + y) / den - 1.0 - 1.0
  }

  /** The bound behind `WelchDof`, with the denominator and the sum as plain numbers. */
  lemma WelchBound(x: real, y: real, na: real, nb: real, den: real)
    requires 0.0 <= x && 0.0 <= y && 2.0 <= na && 2.0 <= nb
    requires den == x * x / (na + 1.0) + y * y / (nb + 1.0) && 0.0 < den
    ensures 1.0 <= (x + y) * (x + y) / den - 1.0 - 1.0
  {
    var s := x + y;
    ShareAtMostThird(x * x, na);
    ShareAtMostThird(y * y, nb);
    var xx, yy := x * x, y * y;
    assert 3.0 * (xx / 3.0) == xx && 3.0 * (yy / 3.0) == yy;
    assert 3.0 * den <= xx + yy;
    assert 0.0 <= x * y;
    assert xx + yy <= s * s;
    QuotientAtLeast(s * s, den, 3.0);
  }

  lemma QuotientAtLeast(a: real, d: real, c: real)
    requires 0.0 < d && c * d <= a
    ensures c <= a / d
  {
    var q := a / d;
    assert q * d == a;
    ProductBelow(q, c, d);
  }

  lemma ProductBelow(q: real, c: real, d: real)
    requires 0.0 < d
    ensures q < c ==> q * d < c * d
  {
    if q < c {
      assert 0.0 < (c - q) * d;
    }
  }

  /** t/(n+1) <= t/3 for t >= 0 and n >= 2. */
  lemma ShareAtMostThird(t: real, n: real)
    requires 0.0 <= t && 2.0 <= n
    ensures t / (n + 1.0) <= t / 3.0
  {
    var u := t / (n + 1.0);
    QuotientNonNegative(t, n + 1.0);
    assert u * (n + 1.0) == t;
    assert 3.0 * u <= (n + 1.0) * u;
  }

  /**
   * The critical value `interval_bounds` picks at degrees of freedom `dof`:
   * Student's t below `PopulationLimit`, the normal distribution from there
   * on. `None` is the 0/0 value, which is not below the limit.
   */
  function CriticalAt(num: Numerics, conf: Confidences.Confidence, dof: Option<real>): (c: real)
    ensures Sound(num) && 0.5 < conf.Quantile() < 1.0 && (dof.Some? ==> 0.0 < dof.value) ==> 0.0 < c
  {
    match dof
    case Some(d) =>
      if d < Critical.PopulationLimit then Critical.TValue(num, conf, d) else Critical.ZValue(num, conf)
    case None => Critical.ZValue(num, conf)
  }

  /** `interval_bounds` at degrees of freedom that may be the 0/0 value. */
  function BoundsAt(num: Numerics, conf: Confidences.Confidence, diff: real, sem: real, dof: Option<real>): (r: (real, real))
    ensures r.0 + r.1 == 2.0 * diff
    ensures r.1 - diff == CriticalAt(num, conf, dof) * sem
  {
    match dof
    case Some(d) => Critical.IntervalBounds(num, conf, diff, sem, d)
    case None =>
      var span := Critical.ZValue(num, conf) * sem;
      (diff - span, diff + span)
  }

  /** The critical value of the unpaired comparison, at its degrees of freedom. */
  function DiffCritical(num: Numerics, conf: Confidences.Confidence, a: Moments, b: Moments): (c: real)
    requires a.count >= 2 && b.count >= 2
    ensures Sound(num) && 0.5 < conf.Quantile() < 1.0 ==> 0.0 < c
  {
    CriticalAt(num, conf, DiffDof(num, a, b))
  }

  /** The bounds `ci_mean` builds: the difference of the means plus or minus critical value times `DiffSem`. */
  function DiffBounds(num: Numerics, conf: Confidences.Confidence, a: Moments, b: Moments): (r: (real, real))
    requires a.count >= 2 && b.count >= 2
    ensures var diff := SampleMean(a) - SampleMean(b);
      r.0 + r.1 == 2.0 * diff
    ensures r.1 - (SampleMean(a) - SampleMean(b)) == CriticalAt(num, conf, DiffDof(num, a, b)) * DiffSem(num, a, b)
  {
    BoundsAt(num, conf, SampleMean(a) - SampleMean(b), DiffSem(num, a, b), DiffDof(num, a, b))
  }

  /**
   * `Unpaired::ci_mean`: the interval of mean_a - mean_b with the
   * sidedness mapping of `Arithmetic::ci_mean`.
   */
  function UnpairedCiMean(num: Numerics, conf: Confidences.Confidence, a: Moments, b: Moments): (r: Result<Interval<real>, CIError>)
    requires a.count >= 2 && b.count >= 2
    ensures r.Ok? ==> SameSidedness(r.value, conf) && Valid(r.value)
    ensures r.Err? ==> conf.TwoSided? && r.error == IntervalError(InvalidBounds)
    ensures r.Ok? && r.value.TwoSided? ==> r.value.low + r.value.high == 2.0 * (SampleMean(a) - SampleMean(b))
    ensures r.Ok? && r.value.Left().Some? ==> r.value.low == DiffBounds(num, conf, a, b).0
    ensures r.Ok? && r.value.Right().Some? ==> r.value.high == DiffBounds(num, conf, a, b).1
  {
    var bounds := DiffBounds(num, conf, a, b);
    if conf.TwoSided? then
      match New(bounds.0, bounds.1)
      case Ok(i) => Ok(i)
      case Err(e) => Err(IntervalError(e))
    else if conf.UpperOneSided? then Ok(UpperOneSided(bounds.0))
    else Ok(LowerOneSided(bounds.1))
  }

  /**
   * For variances that are not negative and a confidence whose quantile
   * lies in (1/2, 1), the unpaired interval exists and holds the
   * difference of the means.
   */
  lemma UnpairedHoldsDifference(num: Numerics, conf: Confidences.Confidence, a: Moments, b: Moments)
    requires Sound(num) && a.count >= 2 && b.count >= 2
    requires 0.0 <= SampleVariance(a) && 0.0 <= SampleVariance(b)
    requires 0.5 < conf.Quantile() < 1.0
    ensures UnpairedCiMean(num, conf, a, b).Ok?
    ensures Contains(UnpairedCiMean(num, conf, a, b).value, SampleMean(a) - SampleMean(b))
  {
    DiffSpanNonNegative(num, conf, a, b);
  }

  /** Under the same conditions the upper bound is not below the difference of the means. */
  lemma DiffSpanNonNegative(num: Numerics, conf: Confidences.Confidence, a: Moments, b: Moments)
    requires Sound(num) && a.count >= 2 && b.count >= 2
    requires 0.0 <= SampleVariance(a) && 0.0 <= SampleVariance(b)
    requires 0.5 < conf.Quantile() < 1.0
    ensures SampleMean(a) - SampleMean(b) <= DiffBounds(num, conf, a, b).1
  {
    var sem, crit := DiffSem(num, a, b), DiffCritical(num, conf, a, b);
    assert 0.0 <= sem && 0.0 < crit;
    assert 0.0 <= crit * sem;
  }

  /** Exchanging the two samples mirrors a two-sided interval around 0. */
  lemma UnpairedSwap(num: Numerics, conf: Confidences.Confidence, a: Moments, b: Moments)
    requires a.count >= 2 && b.count >= 2 && conf.TwoSided?
    requires UnpairedCiMean(num, conf, a, b).Ok? && UnpairedCiMean(num, conf, b, a).Ok?
    ensures UnpairedCiMean(num, conf, b, a).value.low == -UnpairedCiMean(num, conf, a, b).value.high
    ensures UnpairedCiMean(num, conf, b, a).value.high == -UnpairedCiMean(num, conf, a, b).value.low
  {
    assert DiffSem(num, a, b) == DiffSem(num, b, a);
    assert DiffDof(num, a, b) == DiffDof(num, b, a);
    var diff := SampleMean(a) - SampleMean(b);
    var sem := DiffSem(num, a, b);
    assert SampleMean(b) - SampleMean(a) == -diff;
  }

  /** `Unpaired`: one register per sample. */
  class Unpaired {
    const statsA: Arithmetic
    const statsB: Arithmetic

    /** The two registers are distinct objects, as two fields of a value are. */
    predicate Valid()
    {
      statsA != statsB
    }

    /** `Unpaired::default()`. */
    constructor ()
      ensures fresh(statsA) && fresh(statsB) && Valid()
      ensures statsA.Value() == Empty && statsB.Value() == Empty
    {
      statsA := new Arithmetic();
      statsB := new Arithmetic();
    }

    /** `Unpaired::new`: takes two existing registers. */
    constructor New(a: Arithmetic, b: Arithmetic)
      requires a != b
      ensures statsA == a && statsB == b && Valid()
    {
      statsA, statsB := a, b;
    }

    /** `Unpaired::from_iter`: default registers extended with each sample. */
    static method FromIter(xs: seq<real>, ys: seq<real>) returns (r: Result<Unpaired, CIError>)
      ensures r.Ok? && fresh(r.value) && r.value.Valid()
      ensures r.value.statsA.Value() == FromSeq(xs) && r.value.statsB.Value() == FromSeq(ys)
    {
      var state := new Unpaired();
      AbsorbIsMerge(Empty, xs);
      AbsorbIsMerge(Empty, ys);
      MergeMonoid(FromSeq(xs), FromSeq(ys), Empty);
      var _ := state.ExtendA(xs);
      var _ := state.ExtendB(ys);
      r := Ok(state);
    }

    /** `append_a`: only the first register changes. */
    method AppendA(x: real) returns (r: Result<(), CIError>)
      requires Valid()
      modifies statsA
      ensures r.Ok? && statsA.Value() == Push(old(statsA.Value()), x)
      ensures statsB.Value() == old(statsB.Value())
    {
      r := statsA.Append(x);
    }

    /** `append_b`: only the second register changes. */
    method AppendB(x: real) returns (r: Result<(), CIError>)
      requires Valid()
      modifies statsB
      ensures r.Ok? && statsB.Value() == Push(old(statsB.Value()), x)
      ensures statsA.Value() == old(statsA.Value())
    {
      r := statsB.Append(x);
    }

    /** `append_pair`: one value to each register. */
    method AppendPair(x: real, y: real) returns (r: Result<(), CIError>)
      requires Valid()
      modifies statsA, statsB
      ensures r.Ok?
      ensures statsA.Value() == Push(old(statsA.Value()), x)
      ensures statsB.Value() == Push(old(statsB.Value()), y)
    {
      var _ := AppendA(x);
      r := AppendB(y);
    }

    /** `extend_a`. */
    method ExtendA(xs: seq<real>) returns (r: Result<(), CIError>)
      requires Valid()
      modifies statsA
      ensures r.Ok? && statsA.Value() == Absorb(old(statsA.Value()), xs)
      ensures statsB.Value() == old(statsB.Value())
    {
      r := statsA.Extend(xs);
    }

    /** `extend_b`. */
    method ExtendB(ys: seq<real>) returns (r: Result<(), CIError>)
      requires Valid()
      modifies statsB
      ensures r.Ok? && statsB.Value() == Absorb(old(statsB.Value()), ys)
      ensures statsA.Value() == old(statsA.Value())
    {
      r := statsB.Extend(ys);
    }

    /** `extend`: `extend_a` and then `extend_b`; the samples need not have the same size. */
    method Extend(xs: seq<real>, ys: seq<real>) returns (r: Result<(), CIError>)
      requires Valid()
      modifies statsA, statsB
      ensures r.Ok?
      ensures statsA.Value() == Absorb(old(statsA.Value()), xs)
      ensures statsB.Value() == Absorb(old(statsB.Value()), ys)
    {
      var _ := ExtendA(xs);
      r := ExtendB(ys);
    }

    /** `Unpaired::ci_mean`, on the current registers. */
    function CiMean(num: Numerics, conf: Confidences.Confidence): (r: Result<Interval<real>, CIError>)
      reads statsA, statsB
      requires statsA.count >= 2 && statsB.count >= 2
      ensures r == UnpairedCiMean(num, conf, statsA.Value(), statsB.Value())
      ensures r.Ok? && r.value.TwoSided? ==>
        r.value.low + r.value.high == 2.0 * (SampleMean(statsA.Value()) - SampleMean(statsB.Value()))
    {
      UnpairedCiMean(num, conf, statsA.Value(), statsB.Value())
    }

    /** `Unpaired + Unpaired`: each register merges with its counterpart. */
    static method Add(x: Unpaired, y: Unpaired) returns (r: Unpaired)
      ensures fresh(r) && fresh(r.statsA) && fresh(r.statsB) && r.Valid()
      ensures r.statsA.Value() == Merge(x.statsA.Value(), y.statsA.Value())
      ensures r.statsB.Value() == Merge(x.statsB.Value(), y.statsB.Value())
    {
      var ma := Merge(x.statsA.Value(), y.statsA.Value());
      var mb := Merge(x.statsB.Value(), y.statsB.Value());
      r := new Unpaired();
      r.statsA.count, r.statsA.sum, r.statsA.sumSq := ma.count, ma.sum, ma.sumSq;
      r.statsB.count, r.statsB.sum, r.statsB.sumSq := mb.count, mb.sum, mb.sumSq;
    }
  }

  /** `unpaired_ci`: the registers of both samples, then the unpaired interval. */
  function UnpairedCi(num: Numerics, conf: Confidences.Confidence, xs: seq<real>, ys: seq<real>): (r: Result<Interval<real>, CIError>)
    requires |xs| >= 2 && |ys| >= 2
    ensures r.Ok? ==> SameSidedness(r.value, conf)
    ensures r.Ok? && r.value.TwoSided? ==>
      r.value.low + r.value.high == 2.0 * (Sum(xs) / |xs| as real - Sum(ys) / |ys| as real)
  {
    FromSeqSums(xs);
    FromSeqSums(ys);
    UnpairedCiMean(num, conf, FromSeq(xs), FromSeq(ys))
  }

  /**
   * `Unpaired::ci`: the incremental route (default registers, `extend`,
   * `ci_mean`) gives the same answer as `unpaired_ci`.
   */
  method UnpairedCiIncremental(num: Numerics, conf: Confidences.Confidence, xs: seq<real>, ys: seq<real>) returns (r: Result<Interval<real>, CIError>)
    requires |xs| >= 2 && |ys| >= 2
    ensures r == UnpairedCi(num, conf, xs, ys)
  {
    var stats := new Unpaired();
    var _ := stats.Extend(xs, ys);
    r := stats.CiMean(num, conf);
  }

  /** For samples of at least two values, the unpaired interval holds the difference of the sample means. */
  lemma UnpairedCiHoldsDifference(num: Numerics, conf: Confidences.Confidence, xs: seq<real>, ys: seq<real>)
    requires Sound(num) && |xs| >= 2 && |ys| >= 2 && 0.5 < conf.Quantile() < 1.0
    ensures UnpairedCi(num, conf, xs, ys).Ok?
    ensures Contains(UnpairedCi(num, conf, xs, ys).value, SampleMean(FromSeq(xs)) - SampleMean(FromSeq(ys)))
  {
    VarianceNonNegative(xs);
    VarianceNonNegative(ys);
    UnpairedHoldsDifference(num, conf, FromSeq(xs), FromSeq(ys));
  }
}
