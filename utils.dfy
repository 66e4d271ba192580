/**
 * Compensated accumulation (src/utils.rs): the Kahan step and the
 * validate-transform-accumulate loop that derives a sample's length, mean
 * and standard deviation. Over exact reals the compensation term stays 0,
 * so the accumulated sums are the exact sums.
 */
module Utils {
  import opened Wrappers
  import opened Errors
  import opened Numerics
  import opened Mean

  /**
   * `kahan_add`: one compensated step. The running total `sum - comp`
   * grows by exactly x, and over exact reals the new compensation is 0.
   */
  method KahanAdd(sum: real, x: real, comp: real) returns (newSum: real, newComp: real)
    ensures newSum - newComp == (sum - comp) + x
    ensures newComp == 0.0
  {
    var y := x - comp;
    var t := sum + y;
    newComp := (t - sum) - y;
    newSum := t;
  }

  /** `Statistics`: the sample length, the same as a number, the mean and the standard deviation. */
  datatype Statistics = Statistics(len: nat, n: real, mean: real, stdDev: real)

  /** The index of the first element failing `valid`, or |xs| when there is none. */
  function FirstInvalid<T>(valid: T -> bool, xs: seq<T>): (k: nat)
    ensures k <= |xs|
    ensures forall i :: 0 <= i < k ==> valid(xs[i])
    ensures k < |xs| ==> !valid(xs[k])
  {
    if xs == [] then 0
    else if !valid(xs[0]) then 0
    else 1 + FirstInvalid(valid, xs[1..])
  }

  /** Σ of a sequence extended by one value. */
  lemma SumSnoc(ys: seq<real>, y: real)
    ensures Sum(ys + [y]) == Sum(ys) + y
    ensures SumSq(ys + [y]) == SumSq(ys) + y * y
  {
    assert (ys + [y])[..|ys|] == ys;
  }

  /** One more transformed element extends both running sums. */
  lemma SumsStep<T>(transform: T -> real, data: seq<T>, i: nat)
    requires i < |data|
    ensures Sum(Map(transform, data[..i + 1])) == Sum(Map(transform, data[..i])) + transform(data[i])
    ensures SumSq(Map(transform, data[..i + 1])) == SumSq(Map(transform, data[..i])) + transform(data[i]) * transform(data[i])
  {
    MapSnoc(transform, data, i);
    SumSnoc(Map(transform, data[..i]), transform(data[i]));
  }

  /** The sums over the whole data are those of the register fed the transformed values. */
  lemma SumsComplete<T>(transform: T -> real, data: seq<T>)
    ensures FromSeq(Map(transform, data)) == Moments(|data|, Sum(Map(transform, data[..|data|])), SumSq(Map(transform, data[..|data|])))
  {
    assert data[..|data|] == data;
    FromSeqSums(Map(transform, data));
  }

  /**
   * The loop of `sample_len_mean_stddev_with_transform`: stops at the first
   * element that fails `valid`; otherwise the compensated sums of the
   * transformed values and of their squares, with the length, are the
   * register an `Arithmetic` fed the transformed values holds.
   */
  method Accumulate<T>(data: seq<T>, valid: T -> bool, transform: T -> real) returns (r: Option<Moments>)
    ensures r.None? <==> FirstInvalid(valid, data) < |data|
    ensures r.Some? ==> r.value == FromSeq(Map(transform, data))
  {
    var len: nat := 0;
    var sum, sumC, sumSq, sumSqC := 0.0, 0.0, 0.0, 0.0;
    for i := 0 to |data|
      invariant len == i
      invariant sumC == 0.0 && sumSqC == 0.0
      invariant i <= FirstInvalid(valid, data)
      invariant sum == Sum(Map(transform, data[..i]))
      invariant sumSq == SumSq(Map(transform, data[..i]))
    {
      if !valid(data[i]) {
        assert FirstInvalid(valid, data) == i;
        return None;
      }
      var x := transform(data[i]);
      sum, sumC := KahanAdd(sum, x, sumC);
      sumSq, sumSqC := KahanAdd(sumSq, x * x, sumSqC);
      len := len + 1;
      SumsStep(transform, data, i);
    }
    SumsComplete(transform, data);
    r := Some(Moments(len, sum, sumSq));
  }

  /**
   * `sample_len_mean_stddev_with_transform`: rejects the data with
   * `InvalidInputData` at the first element that fails `valid`; otherwise
   * derives the length, the mean `sum / n` and the standard deviation
   * `sqrt((sum_sq - sum * mean) / (n - 1))` from the accumulated sums,
   * which are those of an `Arithmetic` register fed the transformed values.
   */
  method SampleLenMeanStdDevWithTransform<T>(num: Numerics, data: seq<T>, valid: T -> bool, transform: T -> real)
    returns (r: Result<Statistics, CIError>)
    requires FirstInvalid(valid, data) < |data| || |data| >= 2
    ensures r.Err? <==> FirstInvalid(valid, data) < |data|
    ensures r.Err? ==> r.error == InvalidInputData
    ensures r.Ok? ==>
      var m := FromSeq(Map(transform, data));
      && r.value.len == |data| && r.value.n == |data| as real
      && r.value.mean * r.value.n == Sum(Map(transform, data))
      && m.count >= 2
      && r.value.mean == SampleMean(m)
      && r.value.stdDev == SampleStdDev(num, m)
  {
    var sums := Accumulate(data, valid, transform);
    if sums.None? {
      return Err(InvalidInputData);
    }
    FromSeqSums(Map(transform, data));
    var len := sums.value.count;
    var n := len as real;
    var mean := SampleMean(sums.value);
    var stdDev := SampleStdDev(num, sums.value);
    r := Ok(Statistics(len, n, mean, stdDev));
  }

  /**
   * Whenever the loop succeeds, its standard deviation is the square root
   * of the spread of the transformed sample around its mean over n - 1.
   */
  lemma StatisticsSpread<T>(num: Numerics, data: seq<T>, transform: T -> real, s: Statistics)
    requires Sound(num) && |data| >= 2
    requires s.len == |data| && s.mean == SampleMean(FromSeq(Map(transform, data)))
    requires s.stdDev == SampleStdDev(num, FromSeq(Map(transform, data)))
    ensures 0.0 <= s.stdDev
    ensures s.stdDev == num.sqrt(SumSqDev(Map(transform, data), s.mean) / ((|data| - 1) as real))
  {
    var ys := Map(transform, data);
    assert |ys| == |data|;
    VarianceNonNegative(ys);
    VarianceIsSpread(ys);
  }
}
