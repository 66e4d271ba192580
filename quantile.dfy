/**
 * Confidence intervals for quantiles (src/quantile.rs). The interval is
 * found on ranks: the Wilson interval of the proportion of samples below
 * the quantile, turned into indices of the sorted sample. The sample values
 * are reals here.
 */
module Quantile {
  import opened Wrappers
  import opened Errors
  import opened Numerics
  import opened Intervals
  import Confidences
  import Proportion

  /* ------------------------------------------------------------- indices */

  /** Rounding a non-negative real to the nearest integer, halves upward. */
  function Round(x: real): (k: nat)
    requires 0.0 <= x
    ensures k as real - 0.5 <= x < k as real + 0.5
  {
    Proportion.Truncate(x + 0.5)
  }

  /**
   * `Stats::index`: the index of a quantile in a sample of `population`
   * values, the quantile times the population rounded down and capped at
   * the last index.
   */
  function Index(population: nat, q: real): (r: Result<nat, CIError>)
    ensures population == 0 ==> r == Err(TooFewSamples(0))
    ensures 0 < population && (q < 0.0 || 1.0 < q) ==> r == Err(InvalidQuantile(q))
    ensures 0 < population && 0.0 <= q <= 1.0 ==>
      && r.Ok?
      && r.value < population
      && r.value as real <= q * population as real
      && (r.value == population - 1 || q * population as real < r.value as real + 1.0)
  {
    if population == 0 then Err(TooFewSamples(population))
    else if q < 0.0 || 1.0 < q then Err(InvalidQuantile(q))
    else
      var index := Proportion.Truncate(q * population as real);
      Ok(if index < population - 1 then index else population - 1)
  }

  /** A higher quantile never has a lower index. */
  lemma IndexMonotone(population: nat, q1: real, q2: real)
    requires 0 < population && 0.0 <= q1 <= q2 <= 1.0
    ensures Index(population, q1).value <= Index(population, q2).value
  {
    var n := population as real;
    ScaleMonotone(q1, q2, n);
    TruncateMonotone(q1 * n, q2 * n);
  }

  lemma ScaleMonotone(a: real, b: real, n: real)
    requires 0.0 <= a <= b && 0.0 <= n
    ensures 0.0 <= a * n <= b * n
  {
    assert 0.0 <= (b - a) * n;
  }

  /** Truncation never reverses the order of two non-negative reals. */
  lemma TruncateMonotone(x: real, y: real)
    requires 0.0 <= x <= y
    ensures Proportion.Truncate(x) <= Proportion.Truncate(y)
  {
    var k1, k2 := Proportion.Truncate(x), Proportion.Truncate(y);
    assert k1 as real < k2 as real + 1.0;
  }

  /** Every finite bound of an index interval is an index of a sample of size n. */
  predicate InRange(i: Interval<nat>, n: nat)
  {
    && (!i.LowerOneSided? ==> i.low < n)
    && (!i.UpperOneSided? ==> i.high < n)
  }

  /** Index k lies between the finite bounds of an index interval. */
  predicate HoldsIndex(i: Interval<nat>, k: nat)
  {
    && (i.Left().Some? ==> i.low <= k)
    && (i.Right().Some? ==> k <= i.high)
  }

  /** The shape of the interval follows the sidedness of the confidence. */
  predicate SameSide(i: Interval<nat>, conf: Confidences.Confidence)
  {
    && (conf.TwoSided? <==> i.TwoSided?)
    && (conf.UpperOneSided? <==> i.UpperOneSided?)
    && (conf.LowerOneSided? <==> i.LowerOneSided?)
  }

  /**
   * `ci_indices` (`Stats::ci` on a sample of `population` values): the
   * Wilson interval of the rank `round(q n)` out of n, refused when it leaves
   * [0, 1], and its bounds turned into indices.
   */
  function CiIndices(num: Numerics, conf: Confidences.Confidence, population: nat, q: real): (r: Result<Interval<nat>, CIError>)
    ensures (q <= 0.0 || 1.0 <= q) ==> r == Err(InvalidQuantile(q))
    ensures 0.0 < q < 1.0 && population < 4 ==> r == Err(TooFewSamples(population))
    ensures 0.0 < q < 1.0 && 4 <= population ==>
      var w := Proportion.CiWilson(num, conf, population, Round(q * population as real));
      && (w.Err? ==> r == Err(w.error))
      && (w.Ok? && w.value.low < 0.0 ==> r == Err(IndexError(w.value.low, population)))
      && (w.Ok? && 0.0 <= w.value.low && 1.0 < w.value.high ==> r == Err(IndexError(w.value.high, population)))
      && (w.Ok? && 0.0 <= w.value.low && w.value.high <= 1.0 ==> r.Ok?)
    ensures r.Ok? ==> InRange(r.value, population) && SameSide(r.value, conf)
    ensures r.Ok? && r.value.TwoSided? ==> r.value.low <= r.value.high
    ensures 0.0 < q < 1.0 && 4 <= population && r.Ok? ==>
      var w := Proportion.CiWilson(num, conf, population, Round(q * population as real));
      && w.Ok? && 0.0 <= w.value.low <= w.value.high <= 1.0
      && (r.value.Left().Some? ==> r.value.low == Index(population, w.value.low).value)
      && (r.value.Right().Some? ==> r.value.high == Index(population, w.value.high).value)
  {
    if q <= 0.0 || 1.0 <= q then Err(InvalidQuantile(q))
    else if population < 4 then Err(TooFewSamples(population))
    else
      var successes := Round(q * population as real);
      match Proportion.CiWilson(num, conf, population, successes)
      case Err(e) => Err(e)
      case Ok(ci) =>
        var low, high := ci.low, ci.high;
        if low < 0.0 then Err(IndexError(low, population))
        else if high > 1.0 then Err(IndexError(high, population))
        else
          var lo, hi := Index(population, low).value, Index(population, high).value;
          IndexMonotone(population, low, high);
          if conf.TwoSided? then
            match NewIndex(lo, hi)
            case Ok(i) => Ok(i)
            case Err(e) => Err(IntervalError(e))
          else if conf.UpperOneSided? then Ok(UpperOneSided(lo))
          else Ok(LowerOneSided(hi))
  }

  /**
   * For a confidence whose quantile lies in (1/2, 1), a rank that passes the
   * Wilson gates always yields an index interval: the Wilson bounds never
   * leave [0, 1].
   */
  lemma IndicesExist(num: Numerics, conf: Confidences.Confidence, population: nat, q: real)
    requires Sound(num) && 0.5 < conf.Quantile() < 1.0
    requires 0.0 < q < 1.0 && 4 <= population
    requires Proportion.WilsonGates(population, Round(q * population as real))
    ensures CiIndices(num, conf, population, q).Ok?
  {
    Proportion.WilsonWithinUnit(num, conf, population, Round(q * population as real));
  }

  /**
   * An index interval holds the rank round(q n) it was built around, for a
   * confidence whose quantile lies in (1/2, 1): the Wilson interval holds
   * the proportion round(q n) / n, and taking indices keeps that rank
   * between the bounds.
   */
  lemma IndicesHoldRank(num: Numerics, conf: Confidences.Confidence, population: nat, q: real)
    requires Sound(num) && 0.5 < conf.Quantile() < 1.0
    requires 0.0 < q < 1.0 && CiIndices(num, conf, population, q).Ok?
    ensures Round(q * population as real) < population
    ensures HoldsIndex(CiIndices(num, conf, population, q).value, Round(q * population as real))
  {
    var k := Round(q * population as real);
    var w := Proportion.CiWilson(num, conf, population, k);
    Proportion.WilsonHoldsRate(num, conf, population, k);
    IndicesAroundRank(population, w.value.low, w.value.high, k);
  }

  /** Indices of bounds around the proportion k / n lie around k. */
  lemma IndicesAroundRank(population: nat, low: real, high: real, k: nat)
    requires 0 < population && k < population
    requires 0.0 <= low <= k as real / population as real <= high <= 1.0
    ensures Index(population, low).value <= k <= Index(population, high).value
  {
    var n := population as real;
    BelowRank(low, k, n);
    AboveRank(high, k, n);
  }

  /** A bound at most k / n, scaled by n, stays at most k. */
  lemma BelowRank(x: real, k: nat, n: real)
    requires 0.0 < n && x <= k as real / n
    ensures x * n <= k as real
  {
    assert (k as real / n) * n == k as real;
    assert 0.0 <= (k as real / n - x) * n;
  }

  /** A bound at least k / n, scaled by n, is at least k. */
  lemma AboveRank(x: real, k: nat, n: real)
    requires 0.0 < n && k as real / n <= x
    ensures k as real <= x * n
  {
    assert (k as real / n) * n == k as real;
    assert 0.0 <= (x - k as real / n) * n;
  }

  /* ------------------------------------------------------------ counters */

  /** `Stats`: the number of samples a quantile interval is computed for. */
  class Stats {
    var population: nat

    /** `Stats::new`. */
    constructor (population: nat)
      ensures this.population == population
    {
      this.population := population;
    }

    /** `Stats + Stats`: the populations add. */
    static method Add(a: Stats, b: Stats) returns (r: Stats)
      ensures fresh(r) && r.population == a.population + b.population
    {
      r := new Stats(a.population + b.population);
    }

    /** `Stats += Stats`: the population grows by the other's. */
    method AddAssign(rhs: Stats)
      modifies this
      ensures population == old(population) + old(rhs.population)
    {
      population := population + rhs.population;
    }

    /** `Stats::ci`: the index interval of the quantile, inside the sample. */
    function Ci(num: Numerics, conf: Confidences.Confidence, q: real): (r: Result<Interval<nat>, CIError>)
      reads this
      ensures r == CiIndices(num, conf, population, q)
      ensures r.Ok? ==> InRange(r.value, population)
      ensures r.Ok? ==> 4 <= population && 0.0 < q < 1.0
    {
      CiIndices(num, conf, population, q)
    }
  }

  /* ------------------------------------------------------ sorted samples */

  predicate Sorted(s: seq<real>)
  {
    forall k, l :: 0 <= k < l < |s| ==> s[k] <= s[l]
  }

  /**
   * `ci_sorted_unchecked`: panics unless 0 < q < 1, then reads the sample
   * at the indices of `ci_indices`. The sample is trusted to be sorted.
   */
  function CiSortedUnchecked(num: Numerics, conf: Confidences.Confidence, sorted: seq<real>, q: real): (r: Checked<Result<Interval<real>, CIError>>)
    ensures r.Panic? <==> !(0.0 < q < 1.0)
    ensures r.Done? && CiIndices(num, conf, |sorted|, q).Err? ==> r.value == Err(CiIndices(num, conf, |sorted|, q).error)
    ensures r.Done? && r.value.Ok? ==>
      var idx := CiIndices(num, conf, |sorted|, q).value;
      && (idx.TwoSided? ==> r.value.value == TwoSided(sorted[idx.low], sorted[idx.high]))
      && (idx.UpperOneSided? ==> r.value.value == UpperOneSided(sorted[idx.low]))
      && (idx.LowerOneSided? ==> r.value.value == LowerOneSided(sorted[idx.high]))
  {
    if !(0.0 < q < 1.0) then Panic
    else
      match CiIndices(num, conf, |sorted|, q)
      case Err(e) => Done(Err(e))
      case Ok(indices) =>
        match (indices.Left(), indices.Right())
        case (Some(lo), Some(hi)) =>
          (match New(sorted[lo], sorted[hi])
           case Ok(i) => Done(Ok(i))
           case Err(e) => Done(Err(IntervalError(e))))
        case (Some(lo), None) => Done(Ok(UpperOneSided(sorted[lo])))
        case (None, Some(hi)) => Done(Ok(LowerOneSided(sorted[hi])))
        case (None, None) => Done(Err(IntervalError(EmptyInterval)))
  }

  /**
   * On a sorted sample the value interval exists whenever the index
   * interval does, and its sidedness follows the confidence.
   */
  lemma SortedGivesInterval(num: Numerics, conf: Confidences.Confidence, sorted: seq<real>, q: real)
    requires Sorted(sorted) && 0.0 < q < 1.0
    requires CiIndices(num, conf, |sorted|, q).Ok?
    ensures CiSortedUnchecked(num, conf, sorted, q).Done?
    ensures CiSortedUnchecked(num, conf, sorted, q).value.Ok?
    ensures conf.TwoSided? <==> CiSortedUnchecked(num, conf, sorted, q).value.value.TwoSided?
    ensures conf.UpperOneSided? <==> CiSortedUnchecked(num, conf, sorted, q).value.value.UpperOneSided?
    ensures conf.LowerOneSided? <==> CiSortedUnchecked(num, conf, sorted, q).value.value.LowerOneSided?
  {
    var idx := CiIndices(num, conf, |sorted|, q).value;
    if idx.TwoSided? {
      assert sorted[idx.low] <= sorted[idx.high];
    }
  }

  /**
   * On a sorted sample the value interval holds the sample's value at every
   * index the index interval holds; by `IndicesHoldRank`, among them the
   * rank round(q n).
   */
  lemma SortedHoldsIndexedValue(num: Numerics, conf: Confidences.Confidence, sorted: seq<real>, q: real, k: nat)
    requires Sorted(sorted) && 0.0 < q < 1.0
    requires CiIndices(num, conf, |sorted|, q).Ok?
    requires k < |sorted| && HoldsIndex(CiIndices(num, conf, |sorted|, q).value, k)
    ensures CiSortedUnchecked(num, conf, sorted, q).Done? && CiSortedUnchecked(num, conf, sorted, q).value.Ok?
    ensures Contains(CiSortedUnchecked(num, conf, sorted, q).value.value, sorted[k])
  {
    SortedGivesInterval(num, conf, sorted, q);
    ValuesAroundRank(sorted, CiIndices(num, conf, |sorted|, q).value, k, CiSortedUnchecked(num, conf, sorted, q).value.value);
  }

  /** The values of a sorted sample at indices around k lie around the value at k. */
  lemma ValuesAroundRank(sorted: seq<real>, idx: Interval<nat>, k: nat, v: Interval<real>)
    requires Sorted(sorted) && InRange(idx, |sorted|) && k < |sorted| && HoldsIndex(idx, k)
    requires idx.TwoSided? ==> v == TwoSided(sorted[idx.low], sorted[idx.high])
    requires idx.UpperOneSided? ==> v == UpperOneSided(sorted[idx.low])
    requires idx.LowerOneSided? ==> v == LowerOneSided(sorted[idx.high])
    ensures Contains(v, sorted[k])
  {
    if idx.Left().Some? {
      assert sorted[idx.low] <= sorted[k];
    }
    if idx.Right().Some? {
      assert sorted[k] <= sorted[idx.high];
    }
  }

  /* ------------------------------------------------------------- sorting */

  /** `x` put into place in a sorted sequence. */
  function Insert(s: seq<real>, x: real): (r: seq<real>)
    ensures |r| == |s| + 1
    ensures multiset(r) == multiset(s) + multiset{x}
  {
    if s == [] then [x]
    else if x <= s[0] then [x] + s
    else
      assert s == [s[0]] + s[1..];
      [s[0]] + Insert(s[1..], x)
  }

  /** Insertion keeps a sequence sorted. */
  lemma {:induction false} InsertSorted(s: seq<real>, x: real)
    requires Sorted(s)
    ensures Sorted(Insert(s, x))
  {
    if s != [] && s[0] < x {
      var rest := Insert(s[1..], x);
      InsertSorted(s[1..], x);
      forall m | 0 <= m < |rest|
        ensures s[0] <= rest[m]
      {
        assert rest[m] in multiset(rest);
        if rest[m] != x {
          assert rest[m] in multiset(s[1..]);
        }
      }
      assert Insert(s, x) == [s[0]] + rest;
    }
  }

  /** The sorted arrangement of a sample, by insertion. */
  function Sort(s: seq<real>): (r: seq<real>)
    ensures Sorted(r) && multiset(r) == multiset(s)
  {
    if s == [] then []
    else
      assert s == s[..|s| - 1] + [s[|s| - 1]];
      InsertSorted(Sort(s[..|s| - 1]), s[|s| - 1]);
      Insert(Sort(s[..|s| - 1]), s[|s| - 1])
  }

  /** The head of a sorted sequence is at most any of its values. */
  lemma HeadIsLeast(s: seq<real>, x: real)
    requires Sorted(s) && x in multiset(s)
    ensures s[0] <= x
  {
    var i :| 0 <= i < |s| && s[i] == x;
  }

  /** The tail of a non-empty sequence holds its values but the head. */
  lemma MultisetTail(s: seq<real>)
    requires s != []
    ensures multiset(s[1..]) == multiset(s) - multiset{s[0]}
  {
    assert s == [s[0]] + s[1..];
  }

  /** Two sorted arrangements of the same values start alike and go on with the same values. */
  lemma SameHead(a: seq<real>, b: seq<real>)
    requires Sorted(a) && Sorted(b) && multiset(a) == multiset(b) && a != []
    ensures b != [] && a[0] == b[0] && multiset(a[1..]) == multiset(b[1..])
  {
    assert a[0] in multiset(b);
    HeadIsLeast(b, a[0]);
    HeadIsLeast(a, b[0]);
    MultisetTail(a);
    MultisetTail(b);
  }

  /** Two sorted arrangements of the same values are equal. */
  lemma {:induction false} SortedUnique(a: seq<real>, b: seq<real>)
    requires Sorted(a) && Sorted(b) && multiset(a) == multiset(b)
    ensures a == b
  {
    if a == [] {
      assert |multiset(b)| == 0;
    } else {
      SameHead(a, b);
      SortedUnique(a[1..], b[1..]);
      assert a == [a[0]] + a[1..];
      assert b == [b[0]] + b[1..];
    }
  }

  /** `sort_by` on the collected sample: insertion sort by adjacent swaps. */
  method SortInPlace(a: array<real>)
    modifies a
    ensures Sorted(a[..]) && multiset(a[..]) == multiset(old(a[..]))
  {
    var i := 0;
    while i < a.Length
      invariant 0 <= i <= a.Length
      invariant Sorted(a[..i])
      invariant multiset(a[..]) == multiset(old(a[..]))
    {
      SinkLast(a, i);
      i := i + 1;
    }
    assert a[..] == a[..a.Length];
  }

  /** One insertion step: a[i] moves left past every larger element of the sorted a[..i]. */
  method SinkLast(a: array<real>, i: nat)
    requires i < a.Length && Sorted(a[..i])
    modifies a
    ensures Sorted(a[..i + 1]) && multiset(a[..]) == multiset(old(a[..]))
  {
    var j := i;
    while 0 < j && a[j] < a[j - 1]
      invariant 0 <= j <= i
      invariant multiset(a[..]) == multiset(old(a[..]))
      invariant forall k, l :: 0 <= k < l <= i && k != j && l != j ==> a[k] <= a[l]
      invariant forall l :: j < l <= i ==> a[j] <= a[l]
    {
      Swap(a, j);
      j := j - 1;
    }
    forall k, l | 0 <= k < l <= i
      ensures a[k] <= a[l]
    {
      if l == j && k < j - 1 {
        assert a[k] <= a[j - 1];
      }
    }
  }

  /** Exchanges a[j - 1] and a[j]; the other elements stay. */
  method Swap(a: array<real>, j: nat)
    requires 0 < j < a.Length
    modifies a
    ensures a[..] == old(a[..])[j - 1 := old(a[j])][j := old(a[j - 1])]
    ensures multiset(a[..]) == multiset(old(a[..]))
  {
    a[j - 1], a[j] := a[j], a[j - 1];
  }

  /**
   * `quantile::ci`: sorts a copy of the sample and reads the interval off
   * it. The answer depends only on the sample's values, not their order.
   */
  method Ci(num: Numerics, conf: Confidences.Confidence, data: seq<real>, q: real) returns (r: Checked<Result<Interval<real>, CIError>>)
    ensures r == CiSortedUnchecked(num, conf, Sort(data), q)
  {
    var a := new real[|data|](i requires 0 <= i < |data| => data[i]);
    assert a[..] == data;
    SortInPlace(a);
    SortedUnique(a[..], Sort(data));
    r := CiSortedUnchecked(num, conf, a[..], q);
  }

  /** Two orderings of the same sample give the same quantile interval. */
  lemma CiOrderIndependent(num: Numerics, conf: Confidences.Confidence, d1: seq<real>, d2: seq<real>, q: real)
    requires multiset(d1) == multiset(d2)
    ensures CiSortedUnchecked(num, conf, Sort(d1), q) == CiSortedUnchecked(num, conf, Sort(d2), q)
  {
    SortedUnique(Sort(d1), Sort(d2));
  }
}
