/**
 * The floating-point library functions and the inverse distribution functions
 * that the crate borrows from `num_traits` and `statrs`. They are not defined
 * here: every operation that needs one receives them as a `Numerics` value,
 * and the properties proved about the model assume only `Sound(num)`.
 */
module Numerics {
  datatype Numerics = Numerics(
    /** `f64::sqrt` */
    sqrt: real -> real,
    /** `f64::ln` */
    ln: real -> real,
    /** `f64::exp` */
    exp: real -> real,
    /** the value of `1 / 0`, an infinity in IEEE arithmetic, which no real number is */
    recipZero: real,
    /** inverse CDF of Student's t distribution at (probability, degrees of freedom) */
    tInv: (real, real) -> real,
    /** inverse CDF of the standard normal distribution */
    zInv: real -> real)

  /** The few facts about those functions that the properties below rely on. */
  ghost predicate Sound(num: Numerics)
  {
    && (forall x :: 0.0 <= x ==> 0.0 <= num.sqrt(x) && num.sqrt(x) * num.sqrt(x) == x)
    && (forall x :: 0.0 < num.exp(x))
    && (forall x, y :: x <= y ==> num.exp(x) <= num.exp(y))
    && (forall x :: 0.0 < x ==> num.exp(num.ln(x)) == x)
    // above the median, both inverse CDFs are positive (Student's t only
    // exists for positive degrees of freedom)
    && (forall p, d :: 0.5 < p < 1.0 && 0.0 < d ==> 0.0 < num.tInv(p, d))
    && (forall p :: 0.5 < p < 1.0 ==> 0.0 < num.zInv(p))
  }

  /** The square root of a positive number is positive, so it can divide. */
  lemma SqrtPositive(num: Numerics, x: real)
    requires Sound(num) && 0.0 < x
    ensures 0.0 < num.sqrt(x)
  {
    assert 0.0 <= num.sqrt(x) && num.sqrt(x) * num.sqrt(x) == x;
  }

  /** A positive quotient of positive numbers. */
  lemma QuotientPositive(a: real, d: real)
    requires 0.0 < a && 0.0 < d
    ensures 0.0 < a / d
  {
    assert (a / d) * d == a;
  }

  /** A quotient of a non-negative number by a positive one is not negative. */
  lemma QuotientNonNegative(a: real, d: real)
    requires 0.0 <= a && 0.0 < d
    ensures 0.0 <= a / d
  {
    assert (a / d) * d == a;
  }
}
