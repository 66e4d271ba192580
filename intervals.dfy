/**
 * Confidence intervals (src/interval.rs): a two-sided interval `[low, high]`,
 * an upper one-sided interval `[low, +inf)` or a lower one-sided interval
 * `(-inf, high]`, every finite bound included. The shape is generic; the
 * order-dependent operations are stated over `real` (value intervals), and
 * the quantile engine uses `Interval<nat>` for index intervals.
 */
module Intervals {
  import opened Wrappers

  /** `IntervalError`: the two failures seen in use. */
  datatype IntervalError = InvalidBounds | EmptyInterval

  datatype Interval<T> = TwoSided(low: T, high: T) | UpperOneSided(low: T) | LowerOneSided(high: T)
  {
    /** `left` (and `low`, its clone): the finite lower bound, if any. */
    function Left(): (r: Option<T>)
      ensures r.Some? <==> !LowerOneSided?
      ensures r.Some? ==> r.value == low
    {
      match this
      case TwoSided(x, _) => Some(x)
      case UpperOneSided(x) => Some(x)
      case LowerOneSided(_) => None
    }

    /** `right` (and `high`, its clone): the finite upper bound, if any. */
    function Right(): (r: Option<T>)
      ensures r.Some? <==> !UpperOneSided?
      ensures r.Some? ==> r.value == high
    {
      match this
      case TwoSided(_, y) => Some(y)
      case LowerOneSided(y) => Some(y)
      case UpperOneSided(_) => None
    }

    /** `is_one_sided`, the negation of `is_two_sided`. */
    predicate IsOneSided()
      ensures IsOneSided() <==> UpperOneSided? || LowerOneSided?
    {
      !TwoSided?
    }
  }

  /** Reals extended with the two infinities returned by `low_f` and `high_f`. */
  datatype ExtReal = NegInf | Finite(value: real) | PosInf

  predicate LeExt(a: ExtReal, b: ExtReal)
  {
    a.NegInf? || b.PosInf? || (a.Finite? && b.Finite? && a.value <= b.value)
  }

  /** What `new` establishes, and every operation below is checked against. */
  predicate Valid(i: Interval<real>)
  {
    i.TwoSided? ==> i.low <= i.high
  }

  /** `Interval::new`: rejects `low > high` only, so a single point is accepted. */
  function New(low: real, high: real): (r: Result<Interval<real>, IntervalError>)
    ensures r.Ok? <==> low <= high
    ensures r.Ok? ==> r.value == TwoSided(low, high) && Valid(r.value)
    ensures r.Err? ==> r.error == InvalidBounds
  {
    if low > high then Err(InvalidBounds) else Ok(TwoSided(low, high))
  }

  /** `low_f`: the lower bound, `-inf` when there is none. */
  function LowF(i: Interval<real>): (r: ExtReal)
    ensures r != PosInf
    ensures r.Finite? <==> i.Left().Some?
    ensures r.Finite? ==> r.value == i.low
  {
    match i
    case TwoSided(lo, _) => Finite(lo)
    case UpperOneSided(lo) => Finite(lo)
    case LowerOneSided(_) => NegInf
  }

  /** `high_f`: the upper bound, `+inf` when there is none. */
  function HighF(i: Interval<real>): (r: ExtReal)
    ensures r != NegInf
    ensures r.Finite? <==> i.Right().Some?
    ensures r.Finite? ==> r.value == i.high
  {
    match i
    case TwoSided(_, hi) => Finite(hi)
    case UpperOneSided(_) => PosInf
    case LowerOneSided(hi) => Finite(hi)
  }

  /** `contains`: inclusive at every finite bound. */
  predicate Contains(i: Interval<real>, x: real)
    ensures Contains(i, x) <==> LeExt(LowF(i), Finite(x)) && LeExt(Finite(x), HighF(i))
  {
    match i
    case TwoSided(lo, hi) => lo <= x <= hi
    case UpperOneSided(lo) => lo <= x
    case LowerOneSided(hi) => x <= hi
  }

  /** `intersects`, with its case analysis kept exactly as written. */
  predicate Intersects(a: Interval<real>, b: Interval<real>)
  {
    match (a, b)
    case (UpperOneSided(_), UpperOneSided(_)) => true
    case (LowerOneSided(_), LowerOneSided(_)) => true
    case (UpperOneSided(x), LowerOneSided(y)) => x <= y
    case (UpperOneSided(x), TwoSided(_, y)) => x <= y
    case (LowerOneSided(x), UpperOneSided(y)) => x <= y
    case (LowerOneSided(x), TwoSided(_, y)) => x <= y
    case (TwoSided(x, y), UpperOneSided(z)) => x <= z <= y
    case (TwoSided(x, y), LowerOneSided(z)) => x <= z <= y
    case (TwoSided(x, y), TwoSided(p, q)) => x <= q && p <= y
  }

  /** Between two valid two-sided intervals, `intersects` means sharing a point, and is symmetric. */
  lemma IntersectsTwoSided(a: Interval<real>, b: Interval<real>)
    requires a.TwoSided? && b.TwoSided? && Valid(a) && Valid(b)
    ensures Intersects(a, b) <==> exists x :: Contains(a, x) && Contains(b, x)
    ensures Intersects(a, b) == Intersects(b, a)
  {
    if Intersects(a, b) {
      var x := if a.low <= b.low then b.low else a.low;
      assert Contains(a, x) && Contains(b, x);
    }
  }

  /**
   * The mixed cases of `intersects` are not the set intersection: a lower
   * one-sided receiver compares its bound against the other's lower bound the
   * wrong way round, and a two-sided receiver asks for the other's finite bound
   * to lie inside it.
   */
  lemma IntersectsMixedCases()
    ensures Intersects(UpperOneSided(3.0), LowerOneSided(5.0))
    ensures !Intersects(LowerOneSided(5.0), UpperOneSided(3.0))
    ensures Contains(LowerOneSided(5.0), 4.0) && Contains(UpperOneSided(3.0), 4.0)
    ensures !Intersects(TwoSided(0.0, 10.0), UpperOneSided(-5.0))
    ensures Contains(TwoSided(0.0, 10.0), 0.0) && Contains(UpperOneSided(-5.0), 0.0)
  {
  }

  /** `includes`: whether the receiver includes the whole of `other`. */
  predicate Includes(a: Interval<real>, b: Interval<real>)
  {
    match (a, b)
    case (UpperOneSided(x), UpperOneSided(y)) => x <= y
    case (LowerOneSided(x), LowerOneSided(y)) => x >= y
    case (UpperOneSided(x), TwoSided(y, _)) => x <= y
    case (LowerOneSided(x), TwoSided(_, y)) => x >= y
    case (TwoSided(x, y), TwoSided(p, q)) => x <= p && q <= y
    case (UpperOneSided(_), LowerOneSided(_)) => false
    case (LowerOneSided(_), UpperOneSided(_)) => false
    case (TwoSided(_, _), UpperOneSided(_)) => false
    case (TwoSided(_, _), LowerOneSided(_)) => false
  }

  /** A point of `b` outside `a`, whenever `a` does not include `b`. */
  function Outside(a: Interval<real>, b: Interval<real>): (x: real)
    requires Valid(b) && !Includes(a, b)
    ensures Contains(b, x) && !Contains(a, x)
  {
    match (a, b)
    case (UpperOneSided(_), UpperOneSided(y)) => y
    case (LowerOneSided(_), LowerOneSided(y)) => y
    case (UpperOneSided(_), TwoSided(y, _)) => y
    case (LowerOneSided(_), TwoSided(_, y)) => y
    case (TwoSided(x, _), TwoSided(p, q)) => if p < x then p else q
    case (UpperOneSided(x), LowerOneSided(y)) => if y < x then y else x - 1.0
    case (LowerOneSided(x), UpperOneSided(y)) => if x < y then y else x + 1.0
    case (TwoSided(_, y), UpperOneSided(z)) => if y < z then z else y + 1.0
    case (TwoSided(x, _), LowerOneSided(z)) => if z < x then z else x - 1.0
  }

  /** `includes` is reflexive and, for a valid argument, is exactly set inclusion. */
  lemma IncludesIsSubset(a: Interval<real>, b: Interval<real>)
    requires Valid(b)
    ensures Includes(a, a)
    ensures Includes(a, b) <==> forall x :: Contains(b, x) ==> Contains(a, x)
  {
    if !Includes(a, b) {
      var x := Outside(a, b);
      assert Contains(b, x) && !Contains(a, x);
    }
  }

  /** `is_included_in`: the converse of `includes`. */
  predicate IsIncludedIn(a: Interval<real>, b: Interval<real>)
    ensures IsIncludedIn(a, b) <==> Includes(b, a)
    ensures Valid(a) ==> (IsIncludedIn(a, b) <==> forall x :: Contains(a, x) ==> Contains(b, x))
  {
    if Valid(a) then IncludesIsSubset(b, a); Includes(b, a) else Includes(b, a)
  }

  /** `is_degenerate`. */
  predicate IsDegenerate(i: Interval<real>)
  {
    i.TwoSided? && i.low == i.high
  }

  /** An interval is degenerate exactly when it is two-sided and holds a single point. */
  lemma DegenerateIsSinglePoint(i: Interval<real>)
    ensures IsDegenerate(i) <==> i.TwoSided? && forall x :: Contains(i, x) <==> x == i.low
  {
    if i.TwoSided? && forall x :: Contains(i, x) <==> x == i.low {
      assert Contains(i, i.low) <==> i.low == i.low;
      assert Contains(i, i.high) <==> i.high == i.low;
    }
  }

  /** `width`: defined for two-sided intervals only. */
  function Width(i: Interval<real>): (r: Option<real>)
    ensures r.Some? <==> i.TwoSided?
    ensures r.Some? ==> i.low + r.value == i.high
    ensures r.Some? && Valid(i) ==> 0.0 <= r.value
  {
    match i
    case TwoSided(lo, hi) => Some(hi - lo)
    case _ => None
  }

  /** `partial_cmp`: equal, entirely at or below, entirely at or above, or incomparable. */
  function PartialCmp(a: Interval<real>, b: Interval<real>): (r: Option<Ordering>)
    ensures r == Some(Equal) <==> a == b
    ensures r == Some(Less) ==> forall x, y :: Contains(a, x) && Contains(b, y) ==> x <= y
    ensures r == Some(Greater) ==> forall x, y :: Contains(a, x) && Contains(b, y) ==> y <= x
  {
    if a == b then Some(Equal)
    else if a.Left().Some? && b.Right().Some? && a.low >= b.high then Some(Greater)
    else if a.Right().Some? && b.Left().Some? && b.low >= a.high then Some(Less)
    else None
  }

  /**
   * Between valid intervals, `a < b` holds exactly when they differ and `a`'s
   * upper bound is at most `b`'s lower bound; hence `a < b` iff `b > a`.
   */
  lemma PartialCmpLess(a: Interval<real>, b: Interval<real>)
    requires Valid(a) && Valid(b)
    ensures PartialCmp(a, b) == Some(Less) <==>
      a != b && a.Right().Some? && b.Left().Some? && a.high <= b.low
    ensures PartialCmp(a, b) == Some(Less) <==> PartialCmp(b, a) == Some(Greater)
  {
  }

  /** `relative_to`: the panics come from a zero bound of the reference or same-direction one-sided intervals. */
  function RelativeTo(i: Interval<real>, reference: Interval<real>): (r: Checked<Interval<real>>)
    ensures r.Panic? <==>
      || (reference.Left().Some? && reference.low == 0.0)
      || (reference.Right().Some? && reference.high == 0.0)
      || (reference.UpperOneSided? && i.UpperOneSided?)
      || (reference.LowerOneSided? && i.LowerOneSided?)
    // a lower bound is the relative gap of the receiver's low to the reference's high, and dually
    ensures r.Done? && r.value.Left().Some? ==>
      i.Left().Some? && reference.Right().Some? && r.value.low * reference.high == i.low - reference.high
    ensures r.Done? && r.value.Right().Some? ==>
      i.Right().Some? && reference.Left().Some? && r.value.high * reference.low == i.high - reference.low
    ensures r.Done? ==> (r.value.TwoSided? <==> i.TwoSided? && reference.TwoSided?)
  {
    match (reference, i)
    case (TwoSided(a, b), _) =>
      if a == 0.0 || b == 0.0 then Panic
      else if i.TwoSided? then Done(TwoSided((i.low - b) / b, (i.high - a) / a))
      else if i.LowerOneSided? then Done(LowerOneSided((i.high - a) / a))
      else Done(UpperOneSided((i.low - b) / b))
    case (UpperOneSided(a), _) =>
      if a == 0.0 then Panic
      else if i.UpperOneSided? then Panic
      else Done(LowerOneSided((i.high - a) / a))
    case (LowerOneSided(b), _) =>
      if b == 0.0 then Panic
      else if i.LowerOneSided? then Panic
      else Done(UpperOneSided((i.low - b) / b))
  }

  /**
   * `applied`: maps the bounds of a two-sided interval, and turns a one-sided
   * interval into one pointing the other way.
   */
  function Applied(i: Interval<real>, f: real -> real): (r: Interval<real>)
    ensures r.TwoSided? <==> i.TwoSided?
    ensures r.UpperOneSided? <==> i.LowerOneSided?
    ensures i.TwoSided? ==> r.low == f(i.low) && r.high == f(i.high)
    ensures i.LowerOneSided? ==> r.low == f(i.high)
    ensures i.UpperOneSided? ==> r.high == f(i.low)
  {
    match i
    case TwoSided(lo, hi) => TwoSided(f(lo), f(hi))
    case LowerOneSided(v) => UpperOneSided(f(v))
    case UpperOneSided(v) => LowerOneSided(f(v))
  }

  /** `interval * k`. */
  function Mul(i: Interval<real>, k: real): (r: Interval<real>)
    ensures i.TwoSided? ==> r == TwoSided(i.low * k, i.high * k)
    ensures i.UpperOneSided? ==> r == LowerOneSided(i.low * k)
    ensures i.LowerOneSided? ==> r == UpperOneSided(i.high * k)
  {
    Applied(i, x => x * k)
  }

  /** Multiplying a two-sided interval by a positive scalar scales every point. */
  lemma {:induction false} MulScales(i: Interval<real>, k: real, x: real)
    requires i.TwoSided? && 0.0 < k
    ensures Contains(i, x) <==> Contains(Mul(i, k), x * k)
  {
    var lo, hi := i.low, i.high;
    assert (x - lo) * k == x * k - lo * k;
    assert (hi - x) * k == hi * k - x * k;
    assert 0.0 <= x - lo <==> 0.0 <= (x - lo) * k;
    assert 0.0 <= hi - x <==> 0.0 <= (hi - x) * k;
  }

  /** `interval / k`. */
  function Div(i: Interval<real>, k: real): (r: Interval<real>)
    requires k != 0.0
    ensures i.TwoSided? ==> r == TwoSided(i.low / k, i.high / k)
    ensures i.UpperOneSided? ==> r == LowerOneSided(i.low / k)
    ensures i.LowerOneSided? ==> r == UpperOneSided(i.high / k)
  {
    Applied(i, x => x / k)
  }

  /** Dividing a two-sided interval by a positive scalar scales every point. */
  lemma {:induction false} DivScales(i: Interval<real>, k: real, x: real)
    requires i.TwoSided? && 0.0 < k
    ensures Contains(i, x) <==> Contains(Div(i, k), x / k)
  {
    var lo, hi := i.low, i.high;
    assert (x - lo) / k == x / k - lo / k;
    assert (hi - x) / k == hi / k - x / k;
    assert 0.0 <= x - lo <==> 0.0 <= (x - lo) / k;
    assert 0.0 <= hi - x <==> 0.0 <= (hi - x) / k;
  }

  /** `interval + k`. */
  function AddScalar(i: Interval<real>, k: real): (r: Interval<real>)
    ensures i.TwoSided? ==> forall x :: Contains(i, x) <==> Contains(r, x + k)
    ensures i.UpperOneSided? ==> r == LowerOneSided(i.low + k)
    ensures i.LowerOneSided? ==> r == UpperOneSided(i.high + k)
  {
    Applied(i, x => x + k)
  }

  /** `interval - k`. */
  function SubScalar(i: Interval<real>, k: real): (r: Interval<real>)
    ensures i.TwoSided? ==> forall x :: Contains(i, x) <==> Contains(r, x - k)
    ensures i.UpperOneSided? ==> r == LowerOneSided(i.low - k)
    ensures i.LowerOneSided? ==> r == UpperOneSided(i.high - k)
  {
    Applied(i, x => x - k)
  }

  /** `-interval`: the bounds of a two-sided interval are negated in place, without reordering. */
  function Neg(i: Interval<real>): (r: Interval<real>)
    ensures i.TwoSided? ==> r == TwoSided(-i.low, -i.high)
    ensures i.TwoSided? && i.low < i.high ==> !Valid(r)
    ensures i.UpperOneSided? ==> r == LowerOneSided(-i.low)
    ensures i.LowerOneSided? ==> r == UpperOneSided(-i.high)
  {
    Applied(i, x => -x)
  }

  /**
   * Adding a scalar to `[3, +inf)` gives `(-inf, 4]`: the result holds 0,
   * which is no point of the original interval shifted by 1.
   */
  lemma AddScalarFlipsOneSided()
    ensures AddScalar(UpperOneSided(3.0), 1.0) == LowerOneSided(4.0)
    ensures Contains(AddScalar(UpperOneSided(3.0), 1.0), 0.0) && !Contains(UpperOneSided(3.0), 0.0 - 1.0)
  {
  }

  /** Negating `[1, 2]` gives the reversed pair `(-1, -2)`, which holds no point at all. */
  lemma NegReversesTwoSided()
    ensures Neg(TwoSided(1.0, 2.0)) == TwoSided(-1.0, -2.0)
    ensures !Valid(Neg(TwoSided(1.0, 2.0)))
    ensures Contains(TwoSided(1.0, 2.0), 1.5) && !Contains(Neg(TwoSided(1.0, 2.0)), -1.5)
  {
  }

  /** Interval `+` interval: panics on one-sided intervals of opposite directions. */
  function Add(a: Interval<real>, b: Interval<real>): (r: Checked<Interval<real>>)
    ensures r.Panic? <==> (a.UpperOneSided? && b.LowerOneSided?) || (a.LowerOneSided? && b.UpperOneSided?)
    ensures r.Done? ==> (r.value.TwoSided? <==> a.TwoSided? && b.TwoSided?)
    ensures a.TwoSided? && b.TwoSided? ==> r == Done(TwoSided(a.low + b.low, a.high + b.high))
    // every sum of a point of `a` and a point of `b` lies in the result
    ensures r.Done? ==> forall x, y :: Contains(a, x) && Contains(b, y) ==> Contains(r.value, x + y)
    ensures r.Done? && Valid(a) && Valid(b) ==> Valid(r.value)
  {
    match (a, b)
    case (TwoSided(p, q), TwoSided(x, y)) => Done(TwoSided(p + x, q + y))
    case (TwoSided(p, _), UpperOneSided(x)) => Done(UpperOneSided(p + x))
    case (UpperOneSided(p), UpperOneSided(x)) => Done(UpperOneSided(p + x))
    case (TwoSided(_, q), LowerOneSided(y)) => Done(LowerOneSided(q + y))
    case (LowerOneSided(q), LowerOneSided(y)) => Done(LowerOneSided(q + y))
    case (UpperOneSided(p), TwoSided(x, _)) => Done(UpperOneSided(p + x))
    case (LowerOneSided(q), TwoSided(_, y)) => Done(LowerOneSided(q + y))
    case (UpperOneSided(_), LowerOneSided(_)) => Panic
    case (LowerOneSided(_), UpperOneSided(_)) => Panic
  }

  /** Interval `-` interval: panics on one-sided intervals of the same direction. */
  function Sub(a: Interval<real>, b: Interval<real>): (r: Checked<Interval<real>>)
    ensures r.Panic? <==> (a.UpperOneSided? && b.UpperOneSided?) || (a.LowerOneSided? && b.LowerOneSided?)
    ensures r.Done? ==> (r.value.TwoSided? <==> a.TwoSided? && b.TwoSided?)
    ensures a.TwoSided? && b.TwoSided? ==> r == Done(TwoSided(a.low - b.high, a.high - b.low))
    // every difference of a point of `a` and a point of `b` lies in the result
    ensures r.Done? ==> forall x, y :: Contains(a, x) && Contains(b, y) ==> Contains(r.value, x - y)
    ensures r.Done? && Valid(a) && Valid(b) ==> Valid(r.value)
  {
    match (a, b)
    case (TwoSided(p, q), TwoSided(x, y)) => Done(TwoSided(p - y, q - x))
    case (TwoSided(_, q), UpperOneSided(x)) => Done(LowerOneSided(q - x))
    case (LowerOneSided(q), UpperOneSided(x)) => Done(LowerOneSided(q - x))
    case (TwoSided(p, _), LowerOneSided(y)) => Done(UpperOneSided(p - y))
    case (UpperOneSided(p), LowerOneSided(y)) => Done(UpperOneSided(p - y))
    case (UpperOneSided(p), TwoSided(_, y)) => Done(UpperOneSided(p - y))
    case (LowerOneSided(q), TwoSided(x, _)) => Done(LowerOneSided(q - x))
    case (UpperOneSided(_), UpperOneSided(_)) => Panic
    case (LowerOneSided(_), LowerOneSided(_)) => Panic
  }

  /** `TryFrom<(T, T)>`; `TryFrom<RangeInclusive>` is `New` on the range's ends. */
  function FromPair(p: (real, real)): (r: Result<Interval<real>, IntervalError>)
    ensures r.Ok? <==> p.0 <= p.1
    ensures r.Ok? ==> r.value == TwoSided(p.0, p.1)
    ensures r.Err? ==> r.error == InvalidBounds
  {
    if p.0 <= p.1 then New(p.0, p.1) else Err(InvalidBounds)
  }

  /** `TryFrom<(Option<T>, Option<T>)>`: a missing bound makes a one-sided interval. */
  function FromOptions(p: (Option<real>, Option<real>)): (r: Result<Interval<real>, IntervalError>)
    ensures p.0.None? && p.1.None? ==> r == Err(EmptyInterval)
    ensures r.Ok? ==> r.value.Left() == p.0 && r.value.Right() == p.1 && Valid(r.value)
  {
    match p
    case (Some(lo), Some(hi)) => New(lo, hi)
    case (Some(lo), None) => Ok(UpperOneSided(lo))
    case (None, Some(hi)) => Ok(LowerOneSided(hi))
    case (None, None) => Err(EmptyInterval)
  }

  /** `From<Interval<T>> for (Option<T>, Option<T>)`. */
  function ToOptions(i: Interval<real>): (r: (Option<real>, Option<real>))
    ensures r.0.Some? || r.1.Some?
  {
    (i.Left(), i.Right())
  }

  /** The option-pair conversions are inverse to each other on valid intervals. */
  lemma OptionsRoundTrip(i: Interval<real>, p: (Option<real>, Option<real>))
    ensures Valid(i) ==> FromOptions(ToOptions(i)) == Ok(i)
    ensures FromOptions(p).Ok? ==> ToOptions(FromOptions(p).value) == p
  {
  }

  /** `core::ops::Bound` as used by `RangeBounds`. */
  datatype Bound = Included(value: real) | Excluded(value: real) | Unbounded

  /** `RangeBounds::start_bound`: the lower bound, included. */
  function StartBound(i: Interval<real>): (r: Bound)
    ensures r.Unbounded? <==> i.LowerOneSided?
    ensures !r.Unbounded? ==> r == Included(i.low) && (Valid(i) ==> Contains(i, r.value))
  {
    match i.Left()
    case Some(lo) => Included(lo)
    case None => Unbounded
  }

  /** `RangeBounds::end_bound`: reports the upper bound as excluded, although `contains` includes it. */
  function EndBound(i: Interval<real>): (r: Bound)
    ensures r.Unbounded? <==> i.UpperOneSided?
    ensures !r.Unbounded? ==> r == Excluded(i.high) && (Valid(i) ==> Contains(i, r.value))
  {
    match i.Right()
    case Some(hi) => Excluded(hi)
    case None => Unbounded
  }

  /** `Interval::new` at `usize`, for the index intervals of the quantile engine. */
  function NewIndex(low: nat, high: nat): (r: Result<Interval<nat>, IntervalError>)
    ensures r.Ok? <==> low <= high
    ensures r.Ok? ==> r.value == TwoSided(low, high)
    ensures r.Err? ==> r.error == InvalidBounds
  {
    if low > high then Err(InvalidBounds) else Ok(TwoSided(low, high))
  }
}
