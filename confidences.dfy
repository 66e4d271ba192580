/**
 * Confidence levels (src/confidence.rs): a level in (0, 1) tagged with the
 * kind of interval it asks for.
 */
module Confidences {
  import opened Wrappers
  import opened Errors

  datatype Confidence = TwoSided(level: real) | UpperOneSided(level: real) | LowerOneSided(level: real)
  {
    /** `percent`. */
    function Percent(): (r: real)
      ensures r / 100.0 == level
    {
      level * 100.0
    }

    /** `is_one_sided`. */
    predicate IsOneSided()
      ensures IsOneSided() <==> UpperOneSided? || LowerOneSided?
    {
      !TwoSided?
    }

    /** `flipped`: exchanges the two one-sided kinds and keeps the level. */
    function Flipped(): (r: Confidence)
      ensures r.level == level
      ensures r.TwoSided? <==> TwoSided?
      ensures r.UpperOneSided? <==> LowerOneSided?
      ensures r.LowerOneSided? <==> UpperOneSided?
    {
      match this
      case TwoSided(_) => this
      case UpperOneSided(c) => LowerOneSided(c)
      case LowerOneSided(c) => UpperOneSided(c)
    }

    /**
     * `quantile`: the probability at which the critical value is read. A
     * two-sided interval leaves half of the missing probability in each tail.
     */
    function Quantile(): (r: real)
      ensures TwoSided? ==> 2.0 * (1.0 - r) == 1.0 - level
      ensures !TwoSided? ==> r == level
      ensures ValidLevel(level) ==> 0.0 < r < 1.0
      ensures ValidLevel(level) && TwoSided? ==> 0.5 < r
    {
      match this
      case TwoSided(c) => 1.0 - (1.0 - c) / 2.0
      case UpperOneSided(c) => c
      case LowerOneSided(c) => c
    }
  }

  /** The range every constructor insists on. */
  predicate ValidLevel(c: real)
  {
    0.0 < c < 1.0
  }

  /** Flipping twice gives back the original confidence. */
  lemma FlippedTwice(c: Confidence)
    ensures c.Flipped().Flipped() == c
  {
  }

  /** `new` / `new_two_sided`: panics unless the level lies in (0, 1). */
  function NewTwoSided(c: real): (r: Checked<Confidence>)
    ensures r.Done? <==> 0.0 < c < 1.0
    ensures r.Done? ==> r.value == TwoSided(c)
  {
    if c > 0.0 && c < 1.0 then Done(TwoSided(c)) else Panic
  }

  /** `new_upper`. */
  function NewUpper(c: real): (r: Checked<Confidence>)
    ensures r.Done? <==> 0.0 < c < 1.0
    ensures r.Done? ==> r.value == UpperOneSided(c)
  {
    if c > 0.0 && c < 1.0 then Done(UpperOneSided(c)) else Panic
  }

  /** `new_lower`. */
  function NewLower(c: real): (r: Checked<Confidence>)
    ensures r.Done? <==> 0.0 < c < 1.0
    ensures r.Done? ==> r.value == LowerOneSided(c)
  {
    if c > 0.0 && c < 1.0 then Done(LowerOneSided(c)) else Panic
  }

  /** `Default`: a two-sided 95% confidence. */
  function Default(): (r: Confidence)
    ensures r == TwoSided(0.95) && ValidLevel(r.level)
  {
    NewTwoSided(0.95).value
  }

  /** `TryFrom<f64>`: the non-panicking two-sided constructor. */
  function TryFromLevel(c: real): (r: Result<Confidence, CIError>)
    ensures r.Ok? <==> 0.0 < c < 1.0
    ensures r.Ok? ==> r.value == TwoSided(c)
    ensures r.Err? ==> r.error == InvalidConfidenceLevel(c)
  {
    if c > 0.0 && c < 1.0 then Ok(NewTwoSided(c).value) else Err(InvalidConfidenceLevel(c))
  }

  /** `partial_cmp`: only confidences of the same kind compare, by level. */
  function PartialCmp(a: Confidence, b: Confidence): (r: Option<Ordering>)
    ensures r.Some? <==> a.TwoSided? == b.TwoSided? && a.UpperOneSided? == b.UpperOneSided?
    ensures r == Some(Less) <==> r.Some? && a.level < b.level
    ensures r == Some(Equal) <==> a == b
    ensures r == Some(Greater) <==> r.Some? && a.level > b.level
  {
    match (a, b)
    case (TwoSided(x), TwoSided(y)) => Some(CompareReal(x, y))
    case (UpperOneSided(x), UpperOneSided(y)) => Some(CompareReal(x, y))
    case (LowerOneSided(x), LowerOneSided(y)) => Some(CompareReal(x, y))
    case _ => None
  }

  /** `f64::partial_cmp` on non-NaN values. */
  function CompareReal(x: real, y: real): (r: Ordering)
    ensures r == Less <==> x < y
    ensures r == Equal <==> x == y
    ensures r == Greater <==> x > y
  {
    if x < y then Less else if x == y then Equal else Greater
  }
}
