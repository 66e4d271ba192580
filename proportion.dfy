/**
 * Confidence intervals for proportions (src/proportion.rs): success and
 * population counters updated in place, the Wilson score interval with its
 * error gates, the normal-approximation (Wald) interval and the advisory
 * significance check.
 */
module Proportion {
  import opened Wrappers
  import opened Errors
  import opened Numerics
  import opened Intervals
  import Confidences
  import Critical = Stats
  import Mean

  /* ------------------------------------------------------------ counting */

  /** The number of elements of xs that satisfy p. */
  function CountIf<T>(p: T -> bool, xs: seq<T>): (k: nat)
    ensures k <= |xs|
  {
    if xs == [] then 0
    else CountIf(p, xs[..|xs| - 1]) + (if p(xs[|xs| - 1]) then 1 else 0)
  }

  lemma {:induction false} CountIfConcat<T>(p: T -> bool, xs: seq<T>, ys: seq<T>)
    ensures CountIf(p, xs + ys) == CountIf(p, xs) + CountIf(p, ys)
  {
    if ys == [] {
      assert xs + ys == xs;
    } else {
      var init := ys[..|ys| - 1];
      assert (xs + ys)[..|xs + ys| - 1] == xs + init;
      CountIfConcat(p, xs, init);
    }
  }

  /** The predicate `extend` uses: a `true` value is a success. */
  function IsTrue(b: bool): bool
  {
    b
  }

  /** Counting the flags `data.map(cond)` that `ci_if` hands to `ci_true` counts the elements that satisfy the condition. */
  lemma {:induction false} CountFlags<T>(cond: T -> bool, data: seq<T>)
    ensures CountIf(IsTrue, Mean.Map(cond, data)) == CountIf(cond, data)
  {
    if data != [] {
      var init := data[..|data| - 1];
      assert Mean.Map(cond, data)[..|data| - 1] == Mean.Map(cond, init);
      CountFlags(cond, init);
    }
  }

  /* ------------------------------------------------------------ counters */

  /** `Stats`: the population size and the number of successes. */
  class Stats {
    var population: nat
    var successes: nat

    /** The invariant every public way of building or updating a `Stats` keeps. */
    predicate Valid()
      reads this
    {
      successes <= population
    }

    /** `Stats::default()`. */
    constructor ()
      ensures population == 0 && successes == 0 && Valid()
    {
      population, successes := 0, 0;
    }

    /** `Stats::new`: panics when there are more successes than samples. */
    static method New(population: nat, successes: nat) returns (r: Checked<Stats>)
      ensures r.Panic? <==> population < successes
      ensures r.Done? ==> fresh(r.value) && r.value.Valid()
      ensures r.Done? ==> r.value.population == population && r.value.successes == successes
    {
      if population < successes {
        return Panic;
      }
      var s := new Stats();
      s.population, s.successes := population, successes;
      r := Done(s);
    }

    /** `add_success`: one more sample, and it is a success. */
    method AddSuccess()
      modifies this
      ensures population == old(population) + 1 && successes == old(successes) + 1
      ensures old(Valid()) ==> Valid()
    {
      population := population + 1;
      successes := successes + 1;
    }

    /** `add_failure`: one more sample, not a success. */
    method AddFailure()
      modifies this
      ensures population == old(population) + 1 && successes == old(successes)
      ensures old(Valid()) ==> Valid()
    {
      population := population + 1;
    }

    /** `extend_if`: every element is a sample, and those satisfying `isSuccess` are successes. */
    method ExtendIf<T>(data: seq<T>, isSuccess: T -> bool)
      modifies this
      ensures population == old(population) + |data|
      ensures successes == old(successes) + CountIf(isSuccess, data)
      ensures old(Valid()) ==> Valid()
    {
      for i := 0 to |data|
        invariant population == old(population) + i
        invariant successes == old(successes) + CountIf(isSuccess, data[..i])
      {
        assert data[..i + 1][..i] == data[..i];
        if isSuccess(data[i]) {
          AddSuccess();
        } else {
          AddFailure();
        }
      }
      assert data[..|data|] == data;
    }

    /** `extend`: `extend_if` with the values themselves as the success test. */
    method Extend(data: seq<bool>)
      modifies this
      ensures population == old(population) + |data|
      ensures successes == old(successes) + CountIf(IsTrue, data)
      ensures old(Valid()) ==> Valid()
    {
      ExtendIf(data, IsTrue);
    }

    /** `from_iter`: counts a sequence of flags into a fresh `Stats`. */
    static method FromIter(data: seq<bool>) returns (s: Stats)
      ensures fresh(s) && s.Valid()
      ensures s.population == |data| && s.successes == CountIf(IsTrue, data)
    {
      s := new Stats();
      for i := 0 to |data|
        invariant s.population == i && s.successes == CountIf(IsTrue, data[..i])
      {
        assert data[..i + 1][..i] == data[..i];
        if data[i] {
          s.AddSuccess();
        } else {
          s.AddFailure();
        }
      }
      assert data[..|data|] == data;
    }

    /** `Stats + Stats`: both counts add. */
    static method Add(a: Stats, b: Stats) returns (r: Stats)
      ensures fresh(r)
      ensures r.population == a.population + b.population
      ensures r.successes == a.successes + b.successes
      ensures a.Valid() && b.Valid() ==> r.Valid()
    {
      r := new Stats();
      r.population, r.successes := a.population + b.population, a.successes + b.successes;
    }

    /** `Stats::is_significant`: never panics, since the counters keep their invariant. */
    function IsSignificant(): (r: bool)
      reads this
      requires Valid()
      ensures r <==> population > 30 && successes > 5 && population - successes > 5
    {
      IsSignificantAsWritten(population, successes).value
    }
  }

  /** Counting xs and then ys gives the counts of xs + ys, as `Stats + Stats` does. */
  lemma MergeIsConcat<T>(p: T -> bool, xs: seq<T>, ys: seq<T>)
    ensures |xs + ys| == |xs| + |ys|
    ensures CountIf(p, xs + ys) == CountIf(p, xs) + CountIf(p, ys)
  {
    CountIfConcat(p, xs, ys);
  }

  /* -------------------------------------------------------- significance */

  /**
   * `is_significant` as written: more than 30 samples, more than 5
   * successes and more than 5 failures (the criteria of section 7.2.4 of
   * the NIST/SEMATECH e-Handbook of Statistical Methods). The failure count
   * is an unsigned subtraction, which panics when there are more successes
   * than samples and the first two tests passed.
   */
  function IsSignificantAsWritten(population: nat, successes: nat): (r: Checked<bool>)
    ensures r.Panic? <==> population > 30 && successes > 5 && successes > population
    ensures r.Done? ==> (r.value <==> population > 30 && successes > 5 && population - successes > 5)
  {
    if !(population > 30) then Done(false)
    else if !(successes > 5) then Done(false)
    else if successes > population then Panic
    else Done(population - successes > 5)
  }

  /** 40 successes out of 31 samples make `is_significant` panic instead of answering false. */
  lemma IsSignificantPanics()
    ensures IsSignificantAsWritten(31, 40).Panic?
  {
  }

  /** `is_significant` with the failure count guarded: it answers false whenever there are more successes than samples. */
  function IsSignificant(population: nat, successes: nat): (r: bool)
    ensures r <==> population > 30 && successes > 5 && successes <= population && population - successes > 5
    ensures successes <= population ==> IsSignificantAsWritten(population, successes) == Done(r)
  {
    population > 30 && successes > 5 && successes <= population && population - successes > 5
  }

  /* --------------------------------------------------------------- Wilson */

  /** The Wilson centre (n_s + z²/2) / (n + z²). */
  function WilsonCentre(n: real, ns: real, z: real): (c: real)
    requires 0.0 < n
    ensures c * (n + z * z) == ns + z * z / 2.0
  {
    (ns + z * z / 2.0) / (n + z * z)
  }

  /** The Wilson half-width (z / (n + z²)) · sqrt(n_s n_f / n + z²/4). */
  function WilsonSpan(num: Numerics, n: real, ns: real, z: real): (w: real)
    requires 0.0 < n
    ensures Sound(num) && 0.0 <= z && 0.0 <= ns <= n ==> 0.0 <= w
  {
    var root := num.sqrt(ns * (n - ns) / n + z * z / 4.0);
    assert Sound(num) && 0.0 <= ns <= n ==> 0.0 <= root by {
      if Sound(num) && 0.0 <= ns <= n {
        RootArgNonNegative(n, ns, z);
      }
    }
    (z / (n + z * z)) * root
  }

  /**
   * The interval both proportion methods return around `mean`: both bounds
   * for a two-sided confidence, otherwise the kept bound closed by 1 (upper
   * one-sided) or opened from 0 (lower one-sided).
   */
  function Sided(conf: Confidences.Confidence, mean: real, span: real): (r: Result<Interval<real>, CIError>)
    ensures r.Ok? ==> r.value.TwoSided? && Valid(r.value)
    ensures r.Err? ==> r.error == IntervalError(InvalidBounds)
    ensures conf.TwoSided? ==> (r.Ok? <==> 0.0 <= span) && (r.Ok? ==> r.value == TwoSided(mean - span, mean + span))
    ensures conf.UpperOneSided? ==> (r.Ok? <==> mean - span <= 1.0) && (r.Ok? ==> r.value == TwoSided(mean - span, 1.0))
    ensures conf.LowerOneSided? ==> (r.Ok? <==> 0.0 <= mean + span) && (r.Ok? ==> r.value == TwoSided(0.0, mean + span))
  {
    var bounds := if conf.TwoSided? then New(mean - span, mean + span)
      else if conf.UpperOneSided? then New(mean - span, 1.0)
      else New(0.0, mean + span);
    match bounds
    case Ok(i) => Ok(i)
    case Err(e) => Err(IntervalError(e))
  }

  /** The counts the Wilson interval accepts: at least 2 successes and at least 2 failures. */
  predicate WilsonGates(population: nat, successes: nat)
  {
    successes <= population && 2 <= successes && 2 <= population - successes
  }

  /**
   * `ci_wilson` (and its alias `ci`): the error gates in their order, then
   * the Wilson interval. Every interval it returns is two-sided: an upper
   * one-sided confidence keeps the lower bound and closes the interval at
   * 1, a lower one-sided confidence keeps the upper bound and opens it at 0.
   */
  function CiWilson(num: Numerics, conf: Confidences.Confidence, population: nat, successes: nat): (r: Result<Interval<real>, CIError>)
    ensures successes > population ==> r == Err(InvalidSuccesses(successes, population))
    ensures successes <= population && successes < 2 ==>
      r == Err(TooFewSuccesses(successes, population, successes as real))
    ensures successes <= population && 2 <= successes && population - successes < 2 ==>
      r == Err(TooFewFailures(population - successes, population, (population - successes) as real))
    ensures WilsonGates(population, successes) ==> r.Ok? || r == Err(IntervalError(InvalidBounds))
    ensures r.Ok? ==> WilsonGates(population, successes) && r.value.TwoSided? && Valid(r.value)
    ensures r.Ok? ==>
      var n, ns, z := population as real, successes as real, Critical.ZValue(num, conf);
      var c, w := WilsonCentre(n, ns, z), WilsonSpan(num, n, ns, z);
      && (conf.TwoSided? ==> r.value == TwoSided(c - w, c + w))
      && (conf.UpperOneSided? ==> r.value == TwoSided(c - w, 1.0))
      && (conf.LowerOneSided? ==> r.value == TwoSided(0.0, c + w))
  {
    if successes > population then Err(InvalidSuccesses(successes, population))
    else
      var n := population as real;
      var ns := successes as real;
      var nf := n - ns;
      if successes < 2 then Err(TooFewSuccesses(successes, population, ns))
      else if population - successes < 2 then Err(TooFewFailures(population - successes, population, nf))
      else
        var z := Critical.ZValue(num, conf);
        var mean := WilsonCentre(n, ns, z);
        var span := WilsonSpan(num, n, ns, z);
        Sided(conf, mean, span)
  }

  /* Arithmetic behind `WilsonWithinUnit`, on plain numbers. */

  /** A non-negative number whose square is below a's square lies below a. */
  lemma BelowBySquares(r: real, a: real)
    requires 0.0 <= r && 0.0 <= a && r * r < a * a
    ensures r < a
  {
  }

  lemma DivAtMostOne(a: real, n: real)
    requires 0.0 < a <= n
    ensures 0.0 < a / n <= 1.0
  {
    assert (a / n) * n == a;
  }

  /** n_s n_f / n is at most n_s and at most n_f. */
  lemma ShareBelow(n: real, s: real)
    requires 0.0 < s && 0.0 < n - s
    ensures s * (n - s) / n <= s && s * (n - s) / n <= n - s
  {
    var f := n - s;
    calc {
      s * f / n;
    ==
      s * (f / n);
    <=
      { DivAtMostOne(f, n); }
      s * 1.0;
    }
    calc {
      s * f / n;
    ==
      f * (s / n);
    <=
      { DivAtMostOne(s, n); }
      f * 1.0;
    }
  }

  /** z · sqrt(n_s n_f / n + z²/4) < x + z²/2 for any x >= n_s n_f / n. */
  lemma MarginBelow(n: real, s: real, x: real, z: real, root: real)
    requires 0.0 < s && 0.0 < n - s && 0.0 < z && 0.0 <= root && 0.0 < x
    requires s * (n - s) / n <= x
    requires root * root == s * (n - s) / n + z * z / 4.0
    ensures z * root < x + z * z / 2.0
  {
    var t := s * (n - s) / n;
    assert 0.0 <= z * z;
    calc {
      (z * root) * (z * root);
    ==
      (z * z) * (root * root);
    ==
      (z * z) * (t + z * z / 4.0);
    ==
      (z * z) * t + (z * z) * (z * z) / 4.0;
    <=
      (z * z) * x + (z * z) * (z * z) / 4.0;
    <
      { assert 0.0 < x * x; }
      x * x + (z * z) * x + (z * z) * (z * z) / 4.0;
    ==
      (x + z * z / 2.0) * (x + z * z / 2.0);
    }
    assert 0.0 <= z * root;
    BelowBySquares(z * root, x + z * z / 2.0);
  }

  /** The argument of the square root in the Wilson span is never negative. */
  lemma RootArgNonNegative(n: real, s: real, z: real)
    requires 0.0 <= s <= n && 0.0 < n
    ensures 0.0 <= s * (n - s) / n + z * z / 4.0
  {
    assert 0.0 <= s * (n - s);
    assert 0.0 <= s * (n - s) / n;
    assert 0.0 <= z * z;
  }

  /** (s + z²/2)/(n + z²) - (z/(n + z²)) · root is positive when z · root < s + z²/2. */
  lemma LowPositive(n: real, s: real, z: real, root: real)
    requires 0.0 < n && z * root < s + z * z / 2.0
    ensures 0.0 < (s + z * z / 2.0) / (n + z * z) - (z / (n + z * z)) * root
  {
    assert 0.0 < n + z * z;
    calc {
      (s + z * z / 2.0) / (n + z * z) - (z / (n + z * z)) * root;
    ==
      (s + z * z / 2.0 - z * root) / (n + z * z);
    >
      { QuotientPositive(s + z * z / 2.0 - z * root, n + z * z); }
      0.0;
    }
  }

  /** (s + z²/2)/(n + z²) + (z/(n + z²)) · root is below 1 when z · root < (n - s) + z²/2. */
  lemma HighBelowOne(n: real, s: real, z: real, root: real)
    requires 0.0 < s && 0.0 < n && 0.0 <= z * root < (n - s) + z * z / 2.0
    ensures (s + z * z / 2.0) / (n + z * z) + (z / (n + z * z)) * root < 1.0
  {
    assert 0.0 < n + z * z;
    calc {
      (s + z * z / 2.0) / (n + z * z) + (z / (n + z * z)) * root;
    ==
      (s + z * z / 2.0 + z * root) / (n + z * z);
    <
      { DivBelowOne(s + z * z / 2.0 + z * root, n + z * z); }
      1.0;
    }
  }

  lemma DivBelowOne(a: real, d: real)
    requires 0.0 < a < d
    ensures a / d < 1.0
  {
    calc {
      a / d;
    ==
      a * (1.0 / d);
    <
      d * (1.0 / d);
    ==
      1.0;
    }
  }

  /** Centre minus span is positive and centre plus span is below 1. */
  lemma WilsonBounds(num: Numerics, n: real, s: real, z: real)
    requires Sound(num) && 0.0 < s && 0.0 < n - s && 0.0 < z
    ensures 0.0 < WilsonCentre(n, s, z) - WilsonSpan(num, n, s, z)
    ensures WilsonCentre(n, s, z) + WilsonSpan(num, n, s, z) < 1.0
  {
    RootArgNonNegative(n, s, z);
    var root := num.sqrt(s * (n - s) / n + z * z / 4.0);
    assert 0.0 <= root && root * root == s * (n - s) / n + z * z / 4.0;
    ShareBelow(n, s);
    MarginBelow(n, s, s, z, root);
    MarginBelow(n, s, n - s, z, root);
    assert 0.0 <= z * root;
    LowPositive(n, s, z, root);
    HighBelowOne(n, s, z, root);
  }

  /**
   * For a confidence whose quantile lies in (1/2, 1), counts that pass the
   * gates always give an interval, and its bounds stay inside [0, 1]:
   * strictly inside on the side the confidence keeps.
   */
  lemma WilsonWithinUnit(num: Numerics, conf: Confidences.Confidence, population: nat, successes: nat)
    requires Sound(num) && 0.5 < conf.Quantile() < 1.0
    requires WilsonGates(population, successes)
    ensures CiWilson(num, conf, population, successes).Ok?
    ensures 0.0 <= CiWilson(num, conf, population, successes).value.low
    ensures CiWilson(num, conf, population, successes).value.high <= 1.0
    ensures !conf.LowerOneSided? ==> 0.0 < CiWilson(num, conf, population, successes).value.low
    ensures !conf.UpperOneSided? ==> CiWilson(num, conf, population, successes).value.high < 1.0
  {
    var n, ns := population as real, successes as real;
    var z := Critical.ZValue(num, conf);
    assert 0.0 < z;
    WilsonBounds(num, n, ns, z);
  }

  /* Arithmetic behind `WilsonHoldsRate`, on plain numbers. */

  /** A non-negative number whose square is at most a's square is at most a. */
  lemma AtMostBySquares(r: real, a: real)
    requires 0.0 <= r && 0.0 <= a && r * r <= a * a
    ensures r <= a
  {
    SquareGrows(a, r);
  }

  /** Squaring keeps the strict order of non-negative numbers. */
  lemma SquareGrows(a: real, r: real)
    requires 0.0 <= a
    ensures a < r ==> a * a < r * r
  {
    if a < r {
      assert 0.0 <= a * (r - a);
      assert 0.0 < r * (r - a);
    }
  }

  /** h |1/2 - p| <= m for h = z² and m = z · root, when root² = t + z²/4 with t >= 0. */
  lemma GapBelowRoot(p: real, z: real, t: real, root: real, h: real, m: real)
    requires 0.0 <= p <= 1.0 && 0.0 <= z && 0.0 <= t && 0.0 <= root
    requires root * root == t + z * z / 4.0 && h == z * z && m == z * root
    ensures 0.0 <= h
    ensures h * (0.5 - p) <= m
    ensures h * (p - 0.5) <= m
  {
    var g := z * (0.5 - p);
    assert 0.0 <= h;
    assert 0.0 <= p * (1.0 - p);
    assert 0.0 <= h * (p * (1.0 - p));
    calc {
      g * g;
    ==
      h * 0.25 - h * (p * (1.0 - p));
    <=
      h / 4.0;
    <=
      root * root;
    }
    if 0.0 <= g {
      AtMostBySquares(g, root);
    } else {
      AtMostBySquares(-g, root);
    }
    assert z * g <= z * root;
    assert z * -g <= z * root;
  }

  /** Dividing both sides of an inequality by a positive number. */
  lemma DivMonotone(a: real, b: real, d: real)
    requires a <= b && 0.0 < d
    ensures a / d <= b / d
  {
    QuotientNonNegative(b - a, d);
  }

  /** The Wilson span times n + z² is z times the Wilson root. */
  lemma SpanScaled(num: Numerics, n: real, s: real, z: real)
    requires 0.0 < n
    ensures WilsonSpan(num, n, s, z) * (n + z * z) == z * num.sqrt(s * (n - s) / n + z * z / 4.0)
  {
    var d := n + z * z;
    assert (z / d) * d == z;
  }

  /** A factor whose product with a positive number is not negative is not negative. */
  lemma FactorNonNegative(x: real, d: real)
    requires 0.0 < d && 0.0 <= x * d
    ensures 0.0 <= x
  {
    QuotientNonNegative(x * d, d);
    assert x * d / d == x;
  }

  /** lo <= p <= hi when lo d and hi d lie within m of p d = s + p h. */
  lemma RateBetween(n: real, s: real, h: real, m: real, p: real, d: real, lo: real, hi: real)
    requires 0.0 < d && d == n + h && p * n == s
    requires h * (0.5 - p) <= m && h * (p - 0.5) <= m
    requires lo * d == s + h / 2.0 - m && hi * d == s + h / 2.0 + m
    ensures lo <= p <= hi
  {
    assert (p - lo) * d == m - h * (0.5 - p);
    assert (hi - p) * d == m - h * (p - 0.5);
    FactorNonNegative(p - lo, d);
    FactorNonNegative(hi - p, d);
  }

  /** p = n_s / n lies in [0, 1], and n_s n_f / n is not negative. */
  lemma RateInUnit(n: real, s: real)
    requires 0.0 <= s <= n && 0.0 < n
    ensures 0.0 <= s / n <= 1.0 && (s / n) * n == s
    ensures 0.0 <= s * (n - s) / n
  {
    QuotientNonNegative(s, n);
    ScaleAbove(s / n, n);
    QuotientNonNegative(s * (n - s), n);
  }

  /** A factor above 1 scales a positive number up. */
  lemma ScaleAbove(p: real, n: real)
    requires 0.0 < n
    ensures 1.0 < p ==> n < p * n
  {
    if 1.0 < p {
      assert 0.0 < (p - 1.0) * n;
    }
  }

  /** Scaling distributes over a difference and a sum. */
  lemma SumScaled(c: real, w: real, d: real, a: real, b: real)
    requires c * d == a && w * d == b
    ensures (c - w) * d == a - b && (c + w) * d == a + b
  {
  }

  /**
   * c - w <= p <= c + w for a centre c and a span w given by their scaled
   * forms c d = s + h/2 and w d = m, where d = n + h, p n = s and
   * h |1/2 - p| <= m.
   */
  lemma RateAround(n: real, s: real, h: real, m: real, p: real, d: real, c: real, w: real)
    requires 0.0 < n && 0.0 <= h && d == n + h && p * n == s
    requires h * (0.5 - p) <= m && h * (p - 0.5) <= m
    requires c * d == s + h / 2.0 && w * d == m
    ensures c - w <= p <= c + w
  {
    SumScaled(c, w, d, s + h / 2.0, m);
    RateBetween(n, s, h, m, p, d, c - w, c + w);
  }

  /**
   * A centre c and a span w with c (n + z²) = s + z²/2 and w (n + z²) = z root
   * enclose p = s / n, where root² = t + z²/4 with t >= 0.
   */
  lemma CentreSpanAroundRate(n: real, s: real, p: real, z: real, t: real, root: real, c: real, w: real)
    requires 0.0 < n && 0.0 <= p <= 1.0 && p * n == s
    requires 0.0 <= z && 0.0 <= t && 0.0 <= root && root * root == t + z * z / 4.0
    requires c * (n + z * z) == s + z * z / 2.0 && w * (n + z * z) == z * root
    ensures c - w <= p <= c + w
  {
    var h, m := z * z, z * root;
    var d := n + h;
    GapBelowRoot(p, z, t, root, h, m);
    RateAround(n, s, h, m, p, d, c, w);
  }

  /**
   * The Wilson interval always holds the observed proportion n_s / n, for a
   * confidence whose quantile lies in (1/2, 1): the centre is pulled towards
   * 1/2 by no more than the half-width, and a one-sided interval only widens.
   */
  lemma WilsonHoldsRate(num: Numerics, conf: Confidences.Confidence, population: nat, successes: nat)
    requires Sound(num) && 0.5 < conf.Quantile() < 1.0
    requires CiWilson(num, conf, population, successes).Ok?
    ensures Contains(CiWilson(num, conf, population, successes).value, successes as real / population as real)
  {
    var n, ns := population as real, successes as real;
    var z := Critical.ZValue(num, conf);
    assert 0.0 < z;
    WilsonAroundRate(num, n, ns, z);
    DivAtMostOne(ns, n);
  }

  /**
   * c and w are a Wilson centre and half-width for n samples, s successes
   * and critical value z, written over the common denominator n + z², with
   * root the square root in the half-width.
   */
  predicate ScaledWilson(n: real, s: real, z: real, root: real, c: real, w: real)
  {
    && 0.0 < n && 0.0 <= root && root * root == s * (n - s) / n + z * z / 4.0
    && c * (n + z * z) == s + z * z / 2.0
    && w * (n + z * z) == z * root
  }

  /** The Wilson centre and span are the scaled ones. */
  lemma WilsonIsScaled(num: Numerics, n: real, s: real, z: real)
    requires Sound(num) && 0.0 <= s <= n && 0.0 < n
    ensures ScaledWilson(n, s, z, num.sqrt(s * (n - s) / n + z * z / 4.0), WilsonCentre(n, s, z), WilsonSpan(num, n, s, z))
  {
    RootArgNonNegative(n, s, z);
    SpanScaled(num, n, s, z);
  }

  /** A scaled Wilson centre and span enclose s / n. */
  lemma ScaledAroundRate(n: real, s: real, z: real, root: real, c: real, w: real)
    requires 0.0 <= s <= n && 0.0 < n && 0.0 <= z
    requires ScaledWilson(n, s, z, root, c, w)
    ensures c - w <= s / n <= c + w
  {
    RateInUnit(n, s);
    CentreSpanAroundRate(n, s, s / n, z, s * (n - s) / n, root, c, w);
  }

  /** Centre minus span and centre plus span enclose n_s / n. */
  lemma WilsonAroundRate(num: Numerics, n: real, ns: real, z: real)
    requires Sound(num) && 0.0 <= ns <= n && 0.0 < n && 0.0 <= z
    ensures WilsonCentre(n, ns, z) - WilsonSpan(num, n, ns, z) <= ns / n
    ensures ns / n <= WilsonCentre(n, ns, z) + WilsonSpan(num, n, ns, z)
  {
    WilsonIsScaled(num, n, ns, z);
    ScaledAroundRate(n, ns, z, num.sqrt(ns * (n - ns) / n + z * z / 4.0), WilsonCentre(n, ns, z), WilsonSpan(num, n, ns, z));
  }

  /* ------------------------------------------------------ ratio front-end */

  /** A cast of a non-negative real to an unsigned integer: truncation toward zero. */
  function Truncate(x: real): (k: nat)
    requires 0.0 <= x
    ensures k as real <= x < k as real + 1.0
  {
    x.Floor
  }

  /**
   * `ci_wilson_ratio`: a non-positive rate is refused; otherwise the rate
   * times the population, truncated, is the number of successes.
   */
  function CiWilsonRatio(num: Numerics, conf: Confidences.Confidence, population: nat, successRate: real): (r: Result<Interval<real>, CIError>)
    ensures successRate <= 0.0 ==> r == Err(NonPositiveValue(successRate))
    ensures 0.0 < successRate ==> r == CiWilson(num, conf, population, Truncate(successRate * population as real))
  {
    if successRate <= 0.0 then Err(NonPositiveValue(successRate))
    else
      var k := Truncate(successRate * population as real);
      CiWilson(num, conf, population, k)
  }

  /** A rate of at most 1 never yields more successes than samples. */
  lemma RatioWithinPopulation(num: Numerics, conf: Confidences.Confidence, population: nat, successRate: real)
    requires 0.0 < successRate <= 1.0
    ensures Truncate(successRate * population as real) <= population
    ensures !CiWilsonRatio(num, conf, population, successRate).Err?
      || !CiWilsonRatio(num, conf, population, successRate).error.InvalidSuccesses?
  {
    ScaledAtMost(successRate, population as real);
  }

  /* ------------------------------------------------ normal approximation */

  /**
   * `ci_z_normal`: the normal approximation p ± z sqrt(p q / n), refused
   * below 10 successes or 10 failures. With no samples and no successes
   * the source divides 0 by 0; that input is outside the model.
   */
  function CiZNormal(num: Numerics, conf: Confidences.Confidence, population: nat, successes: nat): (r: Result<Interval<real>, CIError>)
    requires successes > population || 0 < population
    ensures successes > population ==> r == Err(InvalidSuccesses(successes, population))
    ensures successes <= population && successes < 10 ==>
      r == Err(TooFewSuccesses(successes, population, successes as real))
    ensures successes <= population && 10 <= successes && population - successes < 10 ==>
      r == Err(TooFewFailures(population - successes, population, (population - successes) as real))
    ensures r.Ok? ==> successes <= population && 10 <= successes && 10 <= population - successes
    ensures r.Ok? ==> r.value.TwoSided? && Valid(r.value)
    ensures r.Ok? ==>
      var w := ZNormalSpan(num, conf, population as real, successes as real / population as real);
      var p := successes as real / population as real;
      && (conf.TwoSided? ==> r.value == TwoSided(p - w, p + w))
      && (conf.UpperOneSided? ==> r.value == TwoSided(p - w, 1.0))
      && (conf.LowerOneSided? ==> r.value == TwoSided(0.0, p + w))
  {
    if successes > population then Err(InvalidSuccesses(successes, population))
    else
      var n := population as real;
      var x := successes as real;
      var p := x / n;
      var q := 1.0 - p;
      assert n * p == x && n * q == n - x by {
        ShareScaled(n, x);
      }
      if n * p < 10.0 then Err(TooFewSuccesses(successes, population, n * p))
      else if n * q < 10.0 then Err(TooFewFailures(population - successes, population, n * q))
      else
        Sided(conf, p, ZNormalSpan(num, conf, n, p))
  }

  /** The normal half-width z sqrt(p q / n), with q = 1 - p. */
  function ZNormalSpan(num: Numerics, conf: Confidences.Confidence, n: real, p: real): (w: real)
    requires 0.0 < n
    ensures Sound(num) && 0.5 < conf.Quantile() < 1.0 && 0.0 <= p <= 1.0 ==> 0.0 <= w
  {
    var q := 1.0 - p;
    var stdDev := num.sqrt(p * q / n);
    var z := Critical.ZValue(num, conf);
    assert Sound(num) && 0.5 < conf.Quantile() < 1.0 && 0.0 <= p <= 1.0 ==> 0.0 <= z * stdDev by {
      if Sound(num) && 0.5 < conf.Quantile() < 1.0 && 0.0 <= p <= 1.0 {
        ProductShareNonNegative(p, q, n);
      }
    }
    z * stdDev
  }

  /** a b / n is non-negative for non-negative a and b and positive n. */
  lemma ProductShareNonNegative(a: real, b: real, n: real)
    requires 0.0 <= a && 0.0 <= b && 0.0 < n
    ensures 0.0 <= a * b / n
  {
    assert 0.0 <= a * b;
  }

  /** A fraction of a non-negative number is at most that number. */
  lemma ScaledAtMost(rate: real, n: real)
    requires 0.0 < rate <= 1.0 && 0.0 <= n
    ensures rate * n <= n
  {
    assert 0.0 <= (1.0 - rate) * n;
  }

  /** n times x/n is x, and n times 1 - x/n is n - x. */
  lemma ShareScaled(n: real, x: real)
    requires 0.0 < n
    ensures n * (x / n) == x && n * (1.0 - x / n) == n - x
  {
  }

  /**
   * With a confidence whose quantile lies in (1/2, 1) and at least 10
   * successes and 10 failures, the normal interval exists and holds the
   * observed proportion.
   */
  lemma ZNormalHoldsProportion(num: Numerics, conf: Confidences.Confidence, population: nat, successes: nat)
    requires Sound(num) && 0.5 < conf.Quantile() < 1.0
    requires successes <= population && 10 <= successes && 10 <= population - successes
    ensures CiZNormal(num, conf, population, successes).Ok?
    ensures Contains(CiZNormal(num, conf, population, successes).value, successes as real / population as real)
  {
    var n, x := population as real, successes as real;
    DivAtMostOne(x, n);
  }

  /* ------------------------------------------------------- entry points */

  /** `Stats::ci` (and the free function `ci`): the Wilson interval of the counters. */
  method Ci(num: Numerics, conf: Confidences.Confidence, stats: Stats) returns (r: Result<Interval<real>, CIError>)
    requires stats.Valid()
    ensures r == CiWilson(num, conf, stats.population, stats.successes)
    ensures stats.successes < 2 ==> r.Err?
    ensures Sound(num) && 0.5 < conf.Quantile() < 1.0 && WilsonGates(stats.population, stats.successes) ==>
      r.Ok? && 0.0 <= r.value.low && r.value.high <= 1.0
  {
    if Sound(num) && 0.5 < conf.Quantile() < 1.0 && WilsonGates(stats.population, stats.successes) {
      WilsonWithinUnit(num, conf, stats.population, stats.successes);
    }
    r := CiWilson(num, conf, stats.population, stats.successes);
  }

  /** `ci_true`: counts the flags into a fresh `Stats` and takes its Wilson interval. */
  method CiTrue(num: Numerics, conf: Confidences.Confidence, data: seq<bool>) returns (r: Result<Interval<real>, CIError>)
    ensures r == CiWilson(num, conf, |data|, CountIf(IsTrue, data))
  {
    var stats := new Stats();
    stats.Extend(data);
    r := Ci(num, conf, stats);
  }

  /** `ci_if`: `ci_true` over the flags `cond` gives the samples. */
  method CiIf<T>(num: Numerics, conf: Confidences.Confidence, data: seq<T>, cond: T -> bool) returns (r: Result<Interval<real>, CIError>)
    ensures r == CiWilson(num, conf, |data|, CountIf(cond, data))
  {
    CountFlags(cond, data);
    r := CiTrue(num, conf, Mean.Map(cond, data));
  }
}
