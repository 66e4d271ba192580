/**
 * Incremental mean registers (src/mean.rs). An `Arithmetic` register keeps
 * the sample count, the sum and the sum of squares (compensated sums in the
 * source, exact sums here); `Geometric` and `Harmonic` keep an `Arithmetic`
 * register of `ln x` and of `1 / x`. The value of a register is a `Moments`;
 * the read-only operations are functions of that value, and the classes
 * perform the in-place `append` and `extend`.
 */
module Mean {
  import opened Wrappers
  import opened Errors
  import opened Numerics
  import opened Intervals
  import Confidences
  import Stats

  /* ---------------------------------------------------------------- data */

  /** Σ xs */
  function Sum(xs: seq<real>): real
  {
    if xs == [] then 0.0 else Sum(xs[..|xs| - 1]) + xs[|xs| - 1]
  }

  /** Σ x² over xs */
  function SumSq(xs: seq<real>): real
  {
    if xs == [] then 0.0 else SumSq(xs[..|xs| - 1]) + xs[|xs| - 1] * xs[|xs| - 1]
  }

  /** Σ (x - c)² over xs: the spread of xs around c. */
  function SumSqDev(xs: seq<real>, c: real): (r: real)
    ensures 0.0 <= r
  {
    if xs == [] then 0.0
    else
      var d := xs[|xs| - 1] - c;
      SumSqDev(xs[..|xs| - 1], c) + d * d
  }

  /** f applied to every element of xs. */
  function Map<T, U>(f: T -> U, xs: seq<T>): (ys: seq<U>)
    ensures |ys| == |xs| && forall i :: 0 <= i < |xs| ==> ys[i] == f(xs[i])
  {
    seq(|xs|, i requires 0 <= i < |xs| => f(xs[i]))
  }

  lemma MapSnoc<T, U>(f: T -> U, xs: seq<T>, i: nat)
    requires i < |xs|
    ensures Map(f, xs[..i + 1]) == Map(f, xs[..i]) + [f(xs[i])]
  {
  }

  /** Absorbing one more mapped element is one more push. */
  lemma AbsorbStep<T>(m: Moments, f: T -> real, xs: seq<T>, i: nat)
    requires i < |xs|
    ensures Absorb(m, Map(f, xs[..i + 1])) == Push(Absorb(m, Map(f, xs[..i])), f(xs[i]))
  {
    MapSnoc(f, xs, i);
    var ys := Map(f, xs[..i + 1]);
    assert ys[..|ys| - 1] == Map(f, xs[..i]);
  }

  /** The value of an `Arithmetic` register: count, Σx and Σx². */
  datatype Moments = Moments(count: nat, sum: real, sumSq: real)

  /** `Arithmetic::default()`. */
  const Empty: Moments := Moments(0, 0.0, 0.0)

  /** The effect of `append(x)` on the register. */
  function Push(m: Moments, x: real): Moments
  {
    Moments(m.count + 1, m.sum + x, m.sumSq + x * x)
  }

  /** The effect of appending every element of xs, in order. */
  function Absorb(m: Moments, xs: seq<real>): (r: Moments)
    ensures r.count == m.count + |xs|
  {
    if xs == [] then m else Push(Absorb(m, xs[..|xs| - 1]), xs[|xs| - 1])
  }

  /** The register `from_iter(xs)` builds. */
  function FromSeq(xs: seq<real>): (r: Moments)
    ensures r.count == |xs|
  {
    Absorb(Empty, xs)
  }

  /** `Arithmetic + Arithmetic`: counts and sums add. */
  function Merge(a: Moments, b: Moments): Moments
  {
    Moments(a.count + b.count, a.sum + b.sum, a.sumSq + b.sumSq)
  }

  /* ------------------------------------------------------ merge algebra */

  /** The register built from xs holds |xs|, Σ xs and Σ x² over xs. */
  lemma {:induction false} FromSeqSums(xs: seq<real>)
    ensures FromSeq(xs) == Moments(|xs|, Sum(xs), SumSq(xs))
  {
    if xs != [] {
      FromSeqSums(xs[..|xs| - 1]);
    }
  }

  /** Pushing x onto the register of xs gives the register of xs followed by x. */
  lemma PushAppends(xs: seq<real>, x: real)
    ensures Push(FromSeq(xs), x) == FromSeq(xs + [x])
    ensures Push(FromSeq(xs), x) == Merge(FromSeq(xs), FromSeq([x]))
  {
    assert (xs + [x])[..|xs + [x]| - 1] == xs;
    assert [x][..0] == [];
    assert FromSeq([x]) == Push(Absorb(Empty, []), x);
  }

  /** Appending xs to a register is merging it with the register of xs. */
  lemma {:induction false} AbsorbIsMerge(m: Moments, xs: seq<real>)
    ensures Absorb(m, xs) == Merge(m, FromSeq(xs))
  {
    if xs != [] {
      AbsorbIsMerge(m, xs[..|xs| - 1]);
    }
  }

  lemma {:induction false} AbsorbConcat(m: Moments, xs: seq<real>, ys: seq<real>)
    ensures Absorb(m, xs + ys) == Absorb(Absorb(m, xs), ys)
  {
    if ys == [] {
      assert xs + ys == xs;
    } else {
      var init := ys[..|ys| - 1];
      assert (xs + ys)[..|xs + ys| - 1] == xs + init;
      AbsorbConcat(m, xs, init);
    }
  }

  /** Merging the registers of two samples gives the register of their concatenation. */
  lemma MergeIsConcat(xs: seq<real>, ys: seq<real>)
    ensures Merge(FromSeq(xs), FromSeq(ys)) == FromSeq(xs + ys)
  {
    AbsorbConcat(Empty, xs, ys);
    AbsorbIsMerge(FromSeq(xs), ys);
  }

  /** `+` on registers is commutative and associative, with the default register as identity. */
  lemma MergeMonoid(a: Moments, b: Moments, c: Moments)
    ensures Merge(a, b) == Merge(b, a)
    ensures Merge(Merge(a, b), c) == Merge(a, Merge(b, c))
    ensures Merge(Empty, a) == a
  {
  }

  /* -------------------------------------------------- read-only queries */

  /** `sample_mean`. */
  function SampleMean(m: Moments): (r: real)
    requires m.count > 0
    ensures r * (m.count as real) == m.sum
  {
    m.sum / (m.count as real)
  }

  /** `sample_variance`. */
  function SampleVariance(m: Moments): real
    requires m.count >= 2
  {
    (m.sumSq - SampleMean(m) * m.sum) / ((m.count - 1) as real)
  }

  lemma {:induction false} SumSqDevExpand(xs: seq<real>, c: real)
    ensures SumSqDev(xs, c) == SumSq(xs) - 2.0 * c * Sum(xs) + (|xs| as real) * c * c
  {
    if xs != [] {
      var init, x := xs[..|xs| - 1], xs[|xs| - 1];
      SumSqDevExpand(init, c);
      var k := |init| as real;
      var cc := c * c;
      assert (x - c) * (x - c) == x * x - 2.0 * c * x + cc;
      assert 2.0 * c * Sum(xs) == 2.0 * c * Sum(init) + 2.0 * c * x;
      assert (|xs| as real) * c * c == (k + 1.0) * cc;
      assert (k + 1.0) * cc == k * cc + cc;
      assert k * c * c == k * cc;
    }
  }

  /**
   * The one-pass formula of `sample_variance` is the spread of the sample
   * around its mean divided by n - 1, so it is never negative.
   */
  lemma {:induction false} VarianceIsSpread(xs: seq<real>)
    requires |xs| >= 2
    ensures SampleVariance(FromSeq(xs)) == SumSqDev(xs, SampleMean(FromSeq(xs))) / ((|xs| - 1) as real)
  {
    FromSeqSums(xs);
    VarianceOfSums(xs);
  }

  /** `VarianceIsSpread` stated on the sums themselves. */
  lemma {:induction false} VarianceOfSums(xs: seq<real>)
    requires |xs| >= 2
    ensures var m := Moments(|xs|, Sum(xs), SumSq(xs));
      SampleVariance(m) == SumSqDev(xs, SampleMean(m)) / ((|xs| - 1) as real)
  {
    var m := Moments(|xs|, Sum(xs), SumSq(xs));
    var mean := SampleMean(m);
    SpreadAroundMean(xs, mean);
    VarianceFromSpread(m, mean, SumSqDev(xs, mean));
  }

  /** Hence the sample variance is never negative. */
  lemma {:induction false} VarianceNonNegative(xs: seq<real>)
    requires |xs| >= 2
    ensures 0.0 <= SampleVariance(FromSeq(xs))
  {
    FromSeqSums(xs);
    VarianceOfSums(xs);
    var m := Moments(|xs|, Sum(xs), SumSq(xs));
    QuotientNonNegative(SumSqDev(xs, SampleMean(m)), (|xs| - 1) as real);
  }

  /** Around the mean, the spread is Σx² - mean · Σx. */
  lemma {:induction false} SpreadAroundMean(xs: seq<real>, mean: real)
    requires mean * (|xs| as real) == Sum(xs)
    ensures SumSqDev(xs, mean) == SumSq(xs) - mean * Sum(xs)
  {
    SumSqDevExpand(xs, mean);
    assert (|xs| as real) * mean * mean == Sum(xs) * mean;
  }

  /** The variance of a register whose Σx² - mean · Σx is `spread`. */
  lemma VarianceFromSpread(m: Moments, mean: real, spread: real)
    requires m.count >= 2 && mean == SampleMean(m) && spread == m.sumSq - mean * m.sum
    ensures SampleVariance(m) == spread / ((m.count - 1) as real)
  {
  }

  /** `sample_std_dev`. */
  function SampleStdDev(num: Numerics, m: Moments): (r: real)
    requires m.count >= 2
    ensures Sound(num) && 0.0 <= SampleVariance(m) ==> 0.0 <= r && r * r == SampleVariance(m)
  {
    num.sqrt(SampleVariance(m))
  }

  /** `sample_sem`: standard deviation over the square root of n - 1. */
  function SampleSem(num: Numerics, m: Moments): (r: real)
    requires Sound(num) && m.count >= 2
    ensures r * num.sqrt((m.count - 1) as real) == SampleStdDev(num, m)
  {
    SqrtPositive(num, (m.count - 1) as real);
    SampleStdDev(num, m) / num.sqrt((m.count - 1) as real)
  }

  /** The standard error `ci_mean` uses: standard deviation over the square root of n. */
  function CiSem(num: Numerics, m: Moments): (r: real)
    requires Sound(num) && m.count >= 2
    ensures r * num.sqrt(m.count as real) == SampleStdDev(num, m)
    ensures 0.0 <= SampleVariance(m) ==> 0.0 <= r
  {
    SqrtPositive(num, m.count as real);
    SampleStdDev(num, m) / num.sqrt(m.count as real)
  }

  /** The two standard errors differ in their denominator: √n for `ci_mean`, √(n-1) for `sample_sem`. */
  lemma SemDenominators(num: Numerics, m: Moments)
    requires Sound(num) && m.count >= 2
    ensures CiSem(num, m) * num.sqrt(m.count as real) == SampleSem(num, m) * num.sqrt((m.count - 1) as real)
  {
  }

  /** The interval has the kind the confidence asks for. */
  predicate SameSidedness(i: Interval<real>, conf: Confidences.Confidence)
  {
    && (i.TwoSided? <==> conf.TwoSided?)
    && (i.UpperOneSided? <==> conf.UpperOneSided?)
    && (i.LowerOneSided? <==> conf.LowerOneSided?)
  }

  /** The half-width of the mean's interval: critical value times `CiSem`, at n - 1 degrees of freedom. */
  function Span(num: Numerics, m: Moments, conf: Confidences.Confidence): (r: real)
    requires Sound(num) && m.count >= 2
    ensures ((m.count - 1) as real) < Stats.PopulationLimit ==>
      r == Stats.TValue(num, conf, (m.count - 1) as real) * CiSem(num, m)
    ensures ((m.count - 1) as real) >= Stats.PopulationLimit ==>
      r == Stats.ZValue(num, conf) * CiSem(num, m)
  {
    var n := m.count as real;
    Stats.IntervalBounds(num, conf, SampleMean(m), CiSem(num, m), n - 1.0).1 - SampleMean(m)
  }

  /**
   * `Arithmetic::ci_mean`: the bounds sit `Span` below and above the mean;
   * a two-sided confidence keeps both (and fails if they are out of order),
   * an upper one-sided confidence keeps the lower bound and a lower
   * one-sided confidence the upper bound.
   */
  function CiMean(num: Numerics, m: Moments, conf: Confidences.Confidence): (r: Result<Interval<real>, CIError>)
    requires Sound(num) && m.count >= 2
    ensures r.Ok? ==> SameSidedness(r.value, conf) && Valid(r.value)
    ensures r.Err? ==> conf.TwoSided? && r.error == IntervalError(InvalidBounds)
    ensures r.Ok? && r.value.Left().Some? ==> r.value.low == SampleMean(m) - Span(num, m, conf)
    ensures r.Ok? && r.value.Right().Some? ==> r.value.high == SampleMean(m) + Span(num, m, conf)
    ensures r.Ok? && r.value.TwoSided? ==> r.value.low + r.value.high == 2.0 * SampleMean(m)
    ensures r.Err? <==> conf.TwoSided? && Span(num, m, conf) < 0.0
  {
    var n := m.count as real;
    var bounds := Stats.IntervalBounds(num, conf, SampleMean(m), CiSem(num, m), n - 1.0);
    if conf.TwoSided? then
      match New(bounds.0, bounds.1)
      case Ok(i) => Ok(i)
      case Err(e) => Err(IntervalError(e))
    else if conf.UpperOneSided? then Ok(UpperOneSided(bounds.0))
    else Ok(LowerOneSided(bounds.1))
  }

  /**
   * `Arithmetic::ci_mean` on any register, as written: below two samples the
   * degrees of freedom n - 1 are zero or negative, and the Student
   * distribution `t_value` builds refuses them with a panic (at count 0,
   * `count - 1` on `usize` already overflows in `sample_variance`).
   */
  function CiMeanAsWritten(num: Numerics, m: Moments, conf: Confidences.Confidence): (r: Checked<Result<Interval<real>, CIError>>)
    requires Sound(num)
    ensures r.Panic? <==> m.count < 2
    ensures r.Done? ==> m.count >= 2 && r.value == CiMean(num, m, conf)
  {
    if m.count < 2 then Panic else Done(CiMean(num, m, conf))
  }

  /**
   * `ci_mean` as its documentation promises: fewer than two samples are
   * reported as `TooFewSamples`; wherever the code as written does not
   * panic, the two agree.
   */
  function CiMeanChecked(num: Numerics, m: Moments, conf: Confidences.Confidence): (r: Result<Interval<real>, CIError>)
    requires Sound(num)
    ensures r == Err(TooFewSamples(m.count)) <==> m.count < 2
    ensures r.Ok? ==> m.count >= 2 && SameSidedness(r.value, conf) && Valid(r.value)
    ensures r.Err? && m.count >= 2 ==> conf.TwoSided? && r.error == IntervalError(InvalidBounds)
    ensures CiMeanAsWritten(num, m, conf).Done? ==> r == CiMeanAsWritten(num, m, conf).value
  {
    if m.count < 2 then Err(TooFewSamples(m.count)) else CiMean(num, m, conf)
  }

  /** A single sample makes the code as written panic, where the documented error is `TooFewSamples(1)`. */
  lemma SingleSamplePanics(num: Numerics, conf: Confidences.Confidence, x: real)
    requires Sound(num)
    ensures CiMeanAsWritten(num, FromSeq([x]), conf).Panic?
    ensures CiMeanChecked(num, FromSeq([x]), conf) == Err(TooFewSamples(1))
  {
  }

  /** The critical value is positive for confidences whose quantile lies in (1/2, 1). */
  lemma SpanNonNegative(num: Numerics, m: Moments, conf: Confidences.Confidence)
    requires Sound(num) && m.count >= 2 && 0.0 <= SampleVariance(m)
    requires 0.5 < conf.Quantile() < 1.0
    ensures 0.0 <= Span(num, m, conf)
  {
    var dof := (m.count - 1) as real;
    var sem := CiSem(num, m);
    if dof < Stats.PopulationLimit {
      var t := Stats.TValue(num, conf, dof);
      assert 0.0 <= t * sem;
    } else {
      var z := Stats.ZValue(num, conf);
      assert 0.0 <= z * sem;
    }
  }

  /**
   * For a sample of at least two values and a confidence above one half,
   * the mean's interval exists and contains the sample mean.
   */
  lemma {:induction false} CiMeanContainsMean(num: Numerics, xs: seq<real>, conf: Confidences.Confidence)
    requires Sound(num) && |xs| >= 2 && 0.5 < conf.Quantile() < 1.0
    ensures FromSeq(xs).count >= 2
    ensures CiMean(num, FromSeq(xs), conf).Ok?
    ensures Contains(CiMean(num, FromSeq(xs), conf).value, SampleMean(FromSeq(xs)))
  {
    VarianceNonNegative(xs);
    SpanNonNegative(num, FromSeq(xs), conf);
  }

  /**
   * An upper (lower) one-sided confidence whose level is the two-sided
   * quantile gives the same lower (upper) bound as the two-sided confidence.
   */
  lemma OneSidedMatchesTwoSided(num: Numerics, m: Moments, c: real)
    requires Sound(num) && m.count >= 2
    ensures var two := CiMean(num, m, Confidences.TwoSided(c));
      var q := Confidences.TwoSided(c).Quantile();
      two.Ok? ==>
        && CiMean(num, m, Confidences.UpperOneSided(q)).value.low == two.value.low
        && CiMean(num, m, Confidences.LowerOneSided(q)).value.high == two.value.high
  {
    var q := Confidences.TwoSided(c).Quantile();
    var n := m.count as real;
    Stats.SameQuantileSameBounds(num, Confidences.TwoSided(c), Confidences.UpperOneSided(q), SampleMean(m), CiSem(num, m), n - 1.0);
    Stats.SameQuantileSameBounds(num, Confidences.TwoSided(c), Confidences.LowerOneSided(q), SampleMean(m), CiSem(num, m), n - 1.0);
  }

  /**
   * `MeanCI::ci` for an `Arithmetic` register: `from_iter(data)?.ci_mean(confidence)`,
   * with `ci_mean` as documented (`CiMeanChecked`). Below two values it
   * answers `TooFewSamples` where the code as written panics; see
   * `CiAgreesAsWritten`.
   */
  function Ci(num: Numerics, conf: Confidences.Confidence, xs: seq<real>): (r: Result<Interval<real>, CIError>)
    requires Sound(num)
    ensures |xs| < 2 <==> r == Err(TooFewSamples(|xs|))
    ensures r.Ok? ==> SameSidedness(r.value, conf)
    ensures r.Ok? && r.value.TwoSided? ==> r.value.low + r.value.high == 2.0 * (Sum(xs) / (|xs| as real))
  {
    FromSeqSums(xs);
    if |xs| >= 2 then
      assert SampleMean(FromSeq(xs)) == Sum(xs) / (|xs| as real);
      CiMeanChecked(num, FromSeq(xs), conf)
    else
      CiMeanChecked(num, FromSeq(xs), conf)
  }

  /**
   * `Ci` against the code as written: `ci_mean` on the register of xs panics
   * exactly when xs has fewer than two values, and elsewhere gives what `Ci`
   * gives.
   */
  lemma CiAgreesAsWritten(num: Numerics, conf: Confidences.Confidence, xs: seq<real>)
    requires Sound(num)
    ensures CiMeanAsWritten(num, FromSeq(xs), conf).Panic? <==> |xs| < 2
    ensures CiMeanAsWritten(num, FromSeq(xs), conf).Panic? ==> Ci(num, conf, xs) == Err(TooFewSamples(|xs|))
    ensures CiMeanAsWritten(num, FromSeq(xs), conf).Done? ==> Ci(num, conf, xs) == CiMeanAsWritten(num, FromSeq(xs), conf).value
  {
    FromSeqSums(xs);
  }

  /* ------------------------------------------ geometric and harmonic */

  /** The index of the first non-positive element, or |xs| when there is none. */
  function FirstNonPositive(xs: seq<real>): (k: nat)
    ensures k <= |xs|
    ensures forall i :: 0 <= i < k ==> 0.0 < xs[i]
    ensures k < |xs| ==> xs[k] <= 0.0
  {
    if xs == [] then 0
    else if xs[0] <= 0.0 then 0
    else 1 + FirstNonPositive(xs[1..])
  }

  /** `exp` on the extended reals: `exp(-inf) = 0` and `exp(+inf) = +inf`. */
  function ExpExt(num: Numerics, e: ExtReal): (r: ExtReal)
    ensures r.Finite? <==> !e.PosInf?
    ensures e.Finite? ==> r == Finite(num.exp(e.value))
  {
    match e
    case NegInf => Finite(0.0)
    case Finite(x) => Finite(num.exp(x))
    case PosInf => PosInf
  }

  /** `1 / x`, whose value at 0 is taken from `Numerics`. */
  function Recip(num: Numerics, x: real): (r: real)
    ensures x != 0.0 ==> r * x == 1.0
  {
    if x == 0.0 then num.recipZero else 1.0 / x
  }

  /** `1 / x` on the extended reals: `1 / ±inf = 0`. */
  function RecipExt(num: Numerics, e: ExtReal): (r: real)
    ensures e.Finite? && e.value != 0.0 ==> r * e.value == 1.0
    ensures !e.Finite? ==> r == 0.0
  {
    match e
    case Finite(x) => Recip(num, x)
    case _ => 0.0
  }

  /** `Geometric::sample_mean`: exp of the mean of the logarithms. */
  function GeometricMean(num: Numerics, logSpace: Moments): (r: real)
    requires logSpace.count > 0
    ensures Sound(num) ==> 0.0 < r
  {
    num.exp(SampleMean(logSpace))
  }

  /** `Geometric::sample_sem`: the log-space standard error scaled by the geometric mean. */
  function GeometricSem(num: Numerics, logSpace: Moments): (r: real)
    requires Sound(num) && logSpace.count >= 2
    ensures r == GeometricMean(num, logSpace) * SampleSem(num, logSpace)
  {
    SqrtPositive(num, (logSpace.count - 1) as real);
    GeometricMean(num, logSpace) * SampleStdDev(num, logSpace) / num.sqrt((logSpace.count - 1) as real)
  }

  /**
   * `Geometric::ci_mean`: the log-space interval for the same confidence,
   * with each bound mapped through exp in place.
   */
  function GeometricCiMean(num: Numerics, logSpace: Moments, conf: Confidences.Confidence): (r: Result<Interval<real>, CIError>)
    requires Sound(num)
    ensures CiMeanChecked(num, logSpace, conf).Err? ==> r == CiMeanChecked(num, logSpace, conf)
    ensures CiMeanChecked(num, logSpace, conf).Ok? ==> r.Ok?
    ensures r.Ok? ==>
      var inner := CiMeanChecked(num, logSpace, conf).value;
      && SameSidedness(r.value, conf) && Valid(r.value)
      && (r.value.Left().Some? ==> r.value.low == num.exp(inner.low))
      && (r.value.Right().Some? ==> r.value.high == num.exp(inner.high))
  {
    match CiMeanChecked(num, logSpace, conf)
    case Err(e) => Err(e)
    case Ok(inner) =>
      var lo, hi := ExpExt(num, LowF(inner)), ExpExt(num, HighF(inner));
      if conf.TwoSided? then
        match New(lo.value, hi.value)
        case Ok(i) => Ok(i)
        case Err(e) => Err(IntervalError(e))
      else if conf.UpperOneSided? then Ok(UpperOneSided(lo.value))
      else Ok(LowerOneSided(hi.value))
  }

  /** `Harmonic::sample_mean`: the reciprocal of the mean of the reciprocals. */
  function HarmonicMean(num: Numerics, recipSpace: Moments): (r: real)
    requires recipSpace.count > 0
  {
    Recip(num, SampleMean(recipSpace))
  }

  lemma {:induction false} SumPositive(xs: seq<real>)
    requires |xs| > 0 && forall i :: 0 <= i < |xs| ==> 0.0 < xs[i]
    ensures 0.0 < Sum(xs)
  {
    if |xs| > 1 {
      SumPositive(xs[..|xs| - 1]);
    }
  }

  /** The harmonic mean of positive values is n over the sum of their reciprocals. */
  lemma {:induction false} HarmonicMeanOfSample(num: Numerics, xs: seq<real>)
    requires |xs| > 0 && forall i :: 0 <= i < |xs| ==> 0.0 < xs[i]
    ensures FromSeq(Map(x => Recip(num, x), xs)).count == |xs|
    ensures HarmonicMean(num, FromSeq(Map(x => Recip(num, x), xs))) * Sum(Map(x => Recip(num, x), xs)) == |xs| as real
  {
    var ys := Map(x => Recip(num, x), xs);
    RecipsPositive(num, xs);
    SumPositive(ys);
    MeanOfSample(ys);
    RecipOfMean(num, SampleMean(FromSeq(ys)), Sum(ys), |xs| as real);
  }

  /** The reciprocals of positive values are positive. */
  lemma RecipsPositive(num: Numerics, xs: seq<real>)
    requires forall i :: 0 <= i < |xs| ==> 0.0 < xs[i]
    ensures forall i :: 0 <= i < |xs| ==> 0.0 < Recip(num, xs[i])
  {
    forall i | 0 <= i < |xs| ensures 0.0 < Recip(num, xs[i]) {
      assert Recip(num, xs[i]) * xs[i] == 1.0;
    }
  }

  /** The mean of a sample's register times its size is the sample's sum. */
  lemma {:induction false} MeanOfSample(xs: seq<real>)
    requires |xs| > 0
    ensures SampleMean(FromSeq(xs)) * (|xs| as real) == Sum(xs)
  {
    FromSeqSums(xs);
  }

  /** 1 / mean times the sum is the count, when mean · count is the (positive) sum. */
  lemma RecipOfMean(num: Numerics, mean: real, sum: real, n: real)
    requires mean * n == sum && 0.0 < sum
    ensures Recip(num, mean) * sum == n
  {
    assert mean != 0.0;
    var r := Recip(num, mean);
    assert r * mean == 1.0;
    calc {
      r * sum;
    ==
      r * (mean * n);
    ==
      (r * mean) * n;
    }
  }

  /** `Harmonic::sample_sem`: the reciprocal-space standard error scaled by the squared harmonic mean. */
  function HarmonicSem(num: Numerics, recipSpace: Moments): (r: real)
    requires Sound(num) && recipSpace.count >= 2
    ensures r == HarmonicMean(num, recipSpace) * HarmonicMean(num, recipSpace) * SampleSem(num, recipSpace)
  {
    SqrtPositive(num, (recipSpace.count - 1) as real);
    var hm := HarmonicMean(num, recipSpace);
    hm * hm * SampleStdDev(num, recipSpace) / num.sqrt((recipSpace.count - 1) as real)
  }

  /**
   * `Harmonic::ci_mean`: the reciprocal-space interval for the flipped
   * confidence, whose upper bound's reciprocal becomes the lower bound and
   * whose lower bound's reciprocal becomes the upper bound.
   */
  function HarmonicCiMean(num: Numerics, recipSpace: Moments, conf: Confidences.Confidence): (r: Result<Interval<real>, CIError>)
    requires Sound(num)
    ensures CiMeanChecked(num, recipSpace, conf.Flipped()).Err? ==> r == CiMeanChecked(num, recipSpace, conf.Flipped())
    ensures CiMeanChecked(num, recipSpace, conf.Flipped()).Ok? && !conf.TwoSided? ==> r.Ok?
    ensures CiMeanChecked(num, recipSpace, conf.Flipped()).Ok? && r.Err? ==>
      conf.TwoSided? && r.error == IntervalError(InvalidBounds)
    ensures r.Ok? ==>
      var inner := CiMeanChecked(num, recipSpace, conf.Flipped());
      && inner.Ok? && SameSidedness(r.value, conf) && Valid(r.value)
      && (r.value.Left().Some? ==> r.value.low == RecipExt(num, HighF(inner.value)))
      && (r.value.Right().Some? ==> r.value.high == RecipExt(num, LowF(inner.value)))
  {
    match CiMeanChecked(num, recipSpace, conf.Flipped())
    case Err(e) => Err(e)
    case Ok(inner) =>
      var lo, hi := RecipExt(num, HighF(inner)), RecipExt(num, LowF(inner));
      if conf.TwoSided? then
        match New(lo, hi)
        case Ok(i) => Ok(i)
        case Err(e) => Err(IntervalError(e))
      else if conf.UpperOneSided? then Ok(UpperOneSided(lo))
      else Ok(LowerOneSided(hi))
  }

  /** An upper one-sided harmonic interval reads the upper bound of a lower one-sided inner interval. */
  lemma HarmonicUpperUsesInnerHigh(num: Numerics, recipSpace: Moments, c: real)
    requires Sound(num) && recipSpace.count >= 2
    ensures var r := HarmonicCiMean(num, recipSpace, Confidences.UpperOneSided(c));
      var inner := CiMean(num, recipSpace, Confidences.LowerOneSided(c));
      && r.Ok? && inner.Ok? && inner.value.LowerOneSided?
      && (inner.value.high != 0.0 ==> r.value.low * inner.value.high == 1.0)
  {
  }

  /** `MeanCI::ci` for a `Geometric` register: fails on the first non-positive value, then on fewer than two samples. */
  function GeometricCi(num: Numerics, conf: Confidences.Confidence, xs: seq<real>): (r: Result<Interval<real>, CIError>)
    requires Sound(num)
    ensures FirstNonPositive(xs) < |xs| ==> r == Err(NonPositiveValue(xs[FirstNonPositive(xs)]))
    ensures FirstNonPositive(xs) == |xs| ==> r == GeometricCiMean(num, FromSeq(Map(num.ln, xs)), conf)
    ensures FirstNonPositive(xs) == |xs| && |xs| < 2 ==> r == Err(TooFewSamples(|xs|))
  {
    var k := FirstNonPositive(xs);
    if k < |xs| then Err(NonPositiveValue(xs[k]))
    else
      FromSeqSums(Map(num.ln, xs));
      GeometricCiMean(num, FromSeq(Map(num.ln, xs)), conf)
  }

  /** `MeanCI::ci` for a `Harmonic` register: fails on the first non-positive value, then on fewer than two samples. */
  function HarmonicCi(num: Numerics, conf: Confidences.Confidence, xs: seq<real>): (r: Result<Interval<real>, CIError>)
    requires Sound(num)
    ensures FirstNonPositive(xs) < |xs| ==> r == Err(NonPositiveValue(xs[FirstNonPositive(xs)]))
    ensures FirstNonPositive(xs) == |xs| ==> r == HarmonicCiMean(num, FromSeq(Map(x => Recip(num, x), xs)), conf)
    ensures FirstNonPositive(xs) == |xs| && |xs| < 2 ==> r == Err(TooFewSamples(|xs|))
  {
    var k := FirstNonPositive(xs);
    if k < |xs| then Err(NonPositiveValue(xs[k]))
    else
      FromSeqSums(Map(x => Recip(num, x), xs));
      HarmonicCiMean(num, FromSeq(Map(x => Recip(num, x), xs)), conf)
  }

  /* ------------------------------------------------- in-place registers */

  /** `Arithmetic`: the register updated in place by `append` and `extend`. */
  class Arithmetic {
    var count: nat
    var sum: real
    var sumSq: real

    function Value(): Moments
      reads this
    {
      Moments(count, sum, sumSq)
    }

    /** `Arithmetic::default()` / `new()`. */
    constructor ()
      ensures Value() == Empty
    {
      count, sum, sumSq := 0, 0.0, 0.0;
    }

    /** `append`: never fails. */
    method Append(x: real) returns (r: Result<(), CIError>)
      modifies this
      ensures r.Ok?
      ensures Value() == Push(old(Value()), x)
    {
      sum := sum + x;
      sumSq := sumSq + x * x;
      count := count + 1;
      r := Ok(());
    }

    /** `extend`: appends every value in order. */
    method Extend(xs: seq<real>) returns (r: Result<(), CIError>)
      modifies this
      ensures r.Ok?
      ensures Value() == Absorb(old(Value()), xs)
    {
      var i := 0;
      while i < |xs|
        invariant 0 <= i <= |xs|
        invariant Value() == Absorb(old(Value()), xs[..i])
      {
        assert xs[..i + 1][..i] == xs[..i];
        var _ := Append(xs[i]);
        i := i + 1;
      }
      assert xs[..i] == xs;
      r := Ok(());
    }

    /** `from_iter`: the default register extended with xs. */
    static method FromIter(xs: seq<real>) returns (r: Result<Arithmetic, CIError>)
      ensures r.Ok? && fresh(r.value)
      ensures r.value.Value() == FromSeq(xs)
    {
      var state := new Arithmetic();
      var _ := state.Extend(xs);
      r := Ok(state);
    }
  }

  /** `Geometric`: an `Arithmetic` register of logarithms. */
  class Geometric {
    const logSpace: Arithmetic

    constructor ()
      ensures fresh(logSpace) && logSpace.Value() == Empty
    {
      logSpace := new Arithmetic();
    }

    /** `append`: rejects a non-positive value and leaves the register unchanged. */
    method Append(num: Numerics, x: real) returns (r: Result<(), CIError>)
      modifies logSpace
      ensures r.Err? <==> x <= 0.0
      ensures r.Err? ==> r.error == NonPositiveValue(x) && logSpace.Value() == old(logSpace.Value())
      ensures r.Ok? ==> logSpace.Value() == Push(old(logSpace.Value()), num.ln(x))
    {
      if x <= 0.0 {
        return Err(NonPositiveValue(x));
      }
      r := logSpace.Append(num.ln(x));
    }

    /** `extend`: appends in order and stops at the first error, keeping what was appended. */
    method Extend(num: Numerics, xs: seq<real>) returns (r: Result<(), CIError>)
      modifies logSpace
      ensures var k := FirstNonPositive(xs);
        && (r.Ok? <==> k == |xs|)
        && (r.Err? ==> r.error == NonPositiveValue(xs[k]))
        && logSpace.Value() == Absorb(old(logSpace.Value()), Map(num.ln, xs[..k]))
    {
      ghost var start := logSpace.Value();
      var i := 0;
      while i < |xs|
        invariant 0 <= i <= |xs|
        invariant i <= FirstNonPositive(xs)
        invariant logSpace.Value() == Absorb(start, Map(num.ln, xs[..i]))
      {
        var res := Append(num, xs[i]);
        if res.Err? {
          assert FirstNonPositive(xs) == i;
          return res;
        }
        AbsorbStep(start, num.ln, xs, i);
        i := i + 1;
      }
      r := Ok(());
    }
  }

  /** `Harmonic`: an `Arithmetic` register of reciprocals. */
  class Harmonic {
    const recipSpace: Arithmetic

    constructor ()
      ensures fresh(recipSpace) && recipSpace.Value() == Empty
    {
      recipSpace := new Arithmetic();
    }

    /** `append`: rejects a non-positive value and leaves the register unchanged. */
    method Append(num: Numerics, x: real) returns (r: Result<(), CIError>)
      modifies recipSpace
      ensures r.Err? <==> x <= 0.0
      ensures r.Err? ==> r.error == NonPositiveValue(x) && recipSpace.Value() == old(recipSpace.Value())
      ensures r.Ok? ==> recipSpace.Value() == Push(old(recipSpace.Value()), Recip(num, x))
    {
      if x <= 0.0 {
        return Err(NonPositiveValue(x));
      }
      r := recipSpace.Append(Recip(num, x));
    }

    /** `extend`: appends in order and stops at the first error, keeping what was appended. */
    method Extend(num: Numerics, xs: seq<real>) returns (r: Result<(), CIError>)
      modifies recipSpace
      ensures var k := FirstNonPositive(xs);
        && (r.Ok? <==> k == |xs|)
        && (r.Err? ==> r.error == NonPositiveValue(xs[k]))
        && recipSpace.Value() == Absorb(old(recipSpace.Value()), Map(x => Recip(num, x), xs[..k]))
    {
      ghost var start := recipSpace.Value();
      var i := 0;
      while i < |xs|
        invariant 0 <= i <= |xs|
        invariant i <= FirstNonPositive(xs)
        invariant recipSpace.Value() == Absorb(start, Map(x => Recip(num, x), xs[..i]))
      {
        var res := Append(num, xs[i]);
        if res.Err? {
          assert FirstNonPositive(xs) == i;
          return res;
        }
        AbsorbStep(start, x => Recip(num, x), xs, i);
        i := i + 1;
      }
      r := Ok(());
    }
  }
}
