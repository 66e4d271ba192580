# stats-ci in Dafny

A model of the interval-building core of the Rust crate `stats-ci`. The crate
computes confidence intervals for:

- means: arithmetic, geometric and harmonic;
- proportions: the Wilson score interval and the normal approximation;
- quantiles: Wilson on the ranks, mapped back to indices of the sorted sample;
- comparisons of two samples: paired and unpaired (Welch-style) differences.

The model keeps the crate's structure:

| module | source file | form |
|---|---|---|
| `Confidences` | `src/confidence.rs` | datatype and functions |
| `Intervals` | `src/interval.rs` | generic datatype and functions |
| `Stats` | `src/stats.rs` | functions |
| `Utils` | `src/utils.rs` | methods with loops |
| `Mean` | `src/mean.rs` | a `Moments` value, functions on it, classes for the registers |
| `Proportion` | `src/proportion.rs` | a counter class and functions |
| `Quantile` | `src/quantile.rs` | a counter class, functions and an in-place sort |
| `Comparison` | `src/comparison.rs` | register-holding classes and functions |
| `Errors` | `src/error.rs` | the `CIError` variants |

Supporting modules:

- `Wrappers` holds `Option`, `Result` and `Checked`. `Checked` is a computation that may panic.
- `Numerics` holds the floating-point library and the inverse distribution functions. They are passed in as a value (`sqrt`, `ln`, `exp`, the t and normal inverse CDFs, and `1/0`). `Numerics.Sound` states the few facts the proofs need:
  - a square root is non-negative and squares back;
  - `exp` is positive and increasing;
  - `exp(ln x) = x`;
  - both inverse CDFs are positive above one half (Student's t at positive degrees of freedom).

Types and arithmetic:

- `f64` is `real` and `usize` is `nat`.
- Every sum is exact, so the Kahan compensation is always zero.
- Casts that truncate (`as usize`) and `round` are written out as `Proportion.Truncate` and `Quantile.Round`.

Quirks of the crate that are modelled as written:

- `intersects` is asymmetric between the two one-sided kinds.
- `applied` turns a one-sided interval into one that points the other way. So `[3, +inf) + 1` is `(-inf, 4]`, and `-[1, 2]` is the unordered pair `(-1, -2)`.
- `end_bound` is exclusive.
- `ci_mean` divides by `sqrt(n)` while `sample_sem` divides by `sqrt(n - 1)`.
- The unpaired degrees of freedom use `n + 1` and then subtract 2.
- `ci_mean` on fewer than two values panics, where its documentation promises `TooFewSamples` (see Findings).
- One-sided proportion intervals come back two-sided, clamped at 1 (upper) or at 0 (lower).

## Model

| member | source | states |
|---|---|---|
| Confidences.Confidence.Percent | src/confidence.rs:202-204 | percent / 100 is the level |
| Confidences.Confidence.IsOneSided | src/confidence.rs:227-229 | one-sided exactly for the upper and lower kinds, i.e. not two-sided |
| Confidences.Confidence.Flipped | src/confidence.rs:251-257 | keeps the level and the two-sided kind, swaps upper and lower |
| Confidences.FlippedTwice | src/confidence.rs:251-257 | flipping twice gives back the confidence |
| Confidences.Confidence.Quantile | src/confidence.rs:269-276 | two-sided: 2(1 - q) = 1 - level; one-sided: the level; for a valid level it lies in (0, 1), above 1/2 when two-sided |
| Confidences.NewTwoSided | src/confidence.rs:142-148 | succeeds exactly for a level in (0, 1), panics otherwise |
| Confidences.NewUpper | src/confidence.rs:161-167 | succeeds exactly for a level in (0, 1), panics otherwise |
| Confidences.NewLower | src/confidence.rs:180-186 | succeeds exactly for a level in (0, 1), panics otherwise |
| Confidences.Default | src/confidence.rs:283-285 | two-sided 0.95, a valid level |
| Confidences.TryFromLevel | src/confidence.rs:305-311 | Ok(TwoSided(c)) iff c in (0, 1), else InvalidConfidenceLevel(c) |
| Confidences.PartialCmp | src/confidence.rs:291-298 | defined iff both have the same kind; Less/Equal/Greater iff the levels compare so |
| Confidences.CompareReal | src/confidence.rs:291-298 | the total order of reals the level comparison uses |
| Intervals.Interval.Left | src/interval.rs:367-372 | present iff the interval has a lower bound, and equal to it |
| Intervals.Interval.Right | src/interval.rs:377-382 | present iff the interval has an upper bound, and equal to it |
| Intervals.Interval.IsOneSided | src/interval.rs:264-266 | one-sided exactly for the two one-sided kinds |
| Intervals.New | src/interval.rs:206-212 | Ok iff low <= high (equal bounds accepted), else InvalidBounds; an Ok interval is `Valid` (two-sided bounds in order) |
| Intervals.NewIndex | src/interval.rs:206-212 | `new` on index bounds: Ok iff low <= high |
| Intervals.LowF | src/interval.rs:424-430 | finite iff there is a lower bound, else -inf |
| Intervals.HighF | src/interval.rs:436-442 | finite iff there is an upper bound, else +inf |
| Intervals.Contains | src/interval.rs:295-301 | inclusive membership, between `LowF` and `HighF` |
| Intervals.IntersectsTwoSided | src/interval.rs:319-334 | `Intersects` on two valid two-sided intervals: true iff they share a point, and symmetric |
| Intervals.IntersectsMixedCases | src/interval.rs:319-334 | `Intersects` on mixed kinds: Upper(3) meets Lower(5) but not conversely; a two-sided interval and a one-sided one sharing 0 need not intersect |
| Intervals.Outside | src/interval.rs:350-362 | when `includes` fails, a witness point of the argument lies outside the receiver |
| Intervals.IncludesIsSubset | src/interval.rs:350-362 | `Includes` is reflexive and, for a valid argument, is set inclusion |
| Intervals.IsIncludedIn | src/interval.rs:341-343 | the converse of `includes`, and set inclusion for a valid receiver |
| Intervals.DegenerateIsSinglePoint | src/interval.rs:391-396 | `IsDegenerate` iff two-sided and holding exactly one point |
| Intervals.Width | src/interval.rs:902-907 | present iff two-sided; low + width = high, non-negative when valid |
| Intervals.PartialCmp | src/interval.rs:987-1001 | Equal iff identical; Less (Greater) puts every point of one at or below (above) every point of the other |
| Intervals.PartialCmpLess | src/interval.rs:987-1001 | Less iff the receiver's upper bound is at most the other's lower bound; a < b iff b > a |
| Intervals.RelativeTo | src/interval.rs:450-476 | panics iff a reference bound is 0 or both are one-sided in the same direction; low = (low - ref high) / ref high, high = (high - ref low) / ref low; two-sided iff both are |
| Intervals.Applied | src/interval.rs:550-559 | maps a two-sided interval's bounds; flips the direction of a one-sided interval |
| Intervals.Mul | src/interval.rs:647-653 | both bounds of a two-sided interval scaled; one-sided flipped |
| Intervals.MulScales | src/interval.rs:647-653 | by a positive k, x is in i iff x * k is in i * k |
| Intervals.Div | src/interval.rs:655-661 | both bounds divided; one-sided flipped |
| Intervals.DivScales | src/interval.rs:655-661 | by a positive k, x is in i iff x / k is in i / k |
| Intervals.AddScalar | src/interval.rs:663-669 | a two-sided interval is shifted point by point; one-sided flipped |
| Intervals.SubScalar | src/interval.rs:671-677 | a two-sided interval is shifted point by point; one-sided flipped |
| Intervals.Neg | src/interval.rs:679-685 | two-sided bounds negated in place, so a non-degenerate result is invalid; one-sided flipped |
| Intervals.AddScalarFlipsOneSided | src/interval.rs:550-559 | [3, +inf) + 1 is (-inf, 4], which holds 0 |
| Intervals.NegReversesTwoSided | src/interval.rs:679-685 | -[1, 2] is the empty pair (-1, -2) |
| Intervals.Add | src/interval.rs:687-713 | panics iff the one-sided directions oppose; [a+x, b+y] for two-sided; contains every sum; keeps validity |
| Intervals.Sub | src/interval.rs:715-743 | panics iff the one-sided directions agree; [a-y, b-x] for two-sided; contains every difference; keeps validity |
| Intervals.FromPair | src/interval.rs:753-759 | Ok(TwoSided) iff the pair is ordered, else InvalidBounds |
| Intervals.FromOptions | src/interval.rs:771-778 | (None, None) is EmptyInterval; an Ok result has the given bounds and is valid |
| Intervals.ToOptions | src/interval.rs:787-793 | at least one side present |
| Intervals.OptionsRoundTrip | src/interval.rs:771-793 | option pair and back is the identity on valid intervals, and conversely |
| Intervals.StartBound | src/interval.rs:882-887 | unbounded iff lower one-sided, else the included low bound |
| Intervals.EndBound | src/interval.rs:889-894 | unbounded iff upper one-sided, else the EXCLUDED high bound, though the interval contains it |
| Stats.ZValue | src/stats.rs:14-19 | positive for a valid two-sided confidence |
| Stats.TValue | src/stats.rs:33-36 | positive for a valid two-sided confidence at positive degrees of freedom |
| Stats.IntervalBounds | src/stats.rs:40-54 | symmetric about the mean; half-width t·sem below 100 000 degrees of freedom, z·sem from there on |
| Stats.SameQuantileSameBounds | src/stats.rs:14-54 | confidences with the same quantile give the same bounds |
| Stats.BoundsOrdered | src/stats.rs:40-54 | non-negative critical value and sem give lo <= hi |
| Stats.TwoSidedBoundsOrdered | src/stats.rs:40-54 | so a valid two-sided confidence, sem >= 0 and positive degrees of freedom give lo <= hi |
| Utils.KahanAdd | src/utils.rs:18-25 | sum - compensation grows by exactly x; the compensation stays 0 |
| Utils.Accumulate | src/utils.rs:86-99 | None iff some element fails `valid`; else the register of the transformed values (count, Σx, Σx²) |
| Utils.SampleLenMeanStdDevWithTransform | src/utils.rs:74-111 | InvalidInputData iff some element fails `valid`; else length, mean = sum/n and the std dev of an `Arithmetic` register fed the transformed values |
| Utils.StatisticsSpread | src/utils.rs:100-110 | the std dev is non-negative and is the square root of the spread about the mean over n - 1 |
| Mean.FromSeq | src/mean.rs:155-159 | the register of xs counts |xs| values |
| Mean.FromSeqSums | src/mean.rs:155-159 | the register of xs holds |xs|, Σx and Σx² |
| Mean.Absorb | src/mean.rs:215-220 | extending adds |xs| to the count |
| Mean.AbsorbConcat | src/mean.rs:215-220 | extending by xs + ys is extending by xs then ys |
| Mean.PushAppends | src/mean.rs:286-291 | `append(x)` on the register of xs gives the register of xs + [x], i.e. adds the register of [x] |
| Mean.AbsorbIsMerge | src/mean.rs:321-331 | extending a register by xs is adding the register of xs |
| Mean.MergeIsConcat | src/mean.rs:321-331 | `Merge`: from_iter(xs) + from_iter(ys) = from_iter(xs + ys) |
| Mean.MergeMonoid | src/mean.rs:321-331 | `+` is commutative and associative, with the default register as identity |
| Mean.SampleMean | src/mean.rs:293-295 | mean · count = sum |
| Mean.VarianceIsSpread | src/mean.rs:270-273 | `SampleVariance`, the one-pass formula, is Σ(x - mean)² / (n - 1) |
| Mean.VarianceOfSums | src/mean.rs:270-273 | the same, stated on the sums |
| Mean.VarianceNonNegative | src/mean.rs:270-273 | the sample variance is never negative |
| Mean.SampleStdDev | src/mean.rs:280-282 | non-negative, and squares to the variance |
| Mean.SampleSem | src/mean.rs:297-299 | sem · sqrt(n - 1) = std dev |
| Mean.CiSem | src/mean.rs:301-305 | the `ci_mean` standard error: sem · sqrt(n) = std dev, non-negative |
| Mean.SemDenominators | src/mean.rs:297-305 | the two standard errors differ only in the √n vs √(n-1) denominator |
| Mean.Span | src/mean.rs:301-307 | the half-width is t·sem at n - 1 dof below the limit, z·sem above |
| Mean.CiMean | src/mean.rs:301-314 | kind follows the confidence; kept bounds are mean ∓ span; low + high = 2·mean; Err iff two-sided with negative span |
| Mean.CiMeanAsWritten | src/mean.rs:301-314 | panics iff fewer than two values (t at n - 1 <= 0 degrees of freedom); otherwise `CiMean` |
| Mean.CiMeanChecked | src/mean.rs:591-607 | TooFewSamples(n) iff n < 2; an Ok interval has the confidence's kind and is valid; other errors only InvalidBounds when two-sided; agrees with `CiMeanAsWritten` wherever that does not panic |
| Mean.SingleSamplePanics | src/stats.rs:33-36 | one value: the code as written panics, the documented result is TooFewSamples(1) |
| Mean.CiAgreesAsWritten | src/mean.rs:601-607 | `ci` as written panics exactly below two values, where `Mean.Ci` gives TooFewSamples; elsewhere the two agree |
| Mean.SpanNonNegative | src/mean.rs:301-314 | the span is non-negative for a quantile in (1/2, 1) |
| Mean.CiMeanContainsMean | src/mean.rs:301-314 | for two or more values the interval exists and holds the sample mean |
| Mean.OneSidedMatchesTwoSided | src/mean.rs:301-314 | Upper(q) gives the two-sided low bound and Lower(q) the high bound, for q the two-sided quantile |
| Mean.Ci | src/mean.rs:601-607 | `MeanCI::ci` on an arithmetic register, with `ci_mean` as documented: TooFewSamples(n) iff n < 2 (the code as written panics there, see `Mean.CiAgreesAsWritten`); kind follows the confidence, centre Σx / n |
| Mean.FirstNonPositive | src/mean.rs:374-382 | index of the first value the geometric and harmonic registers reject |
| Mean.Recip | src/mean.rs:374-382 | 1/x multiplies back to 1 for non-zero x |
| Mean.RecipExt | src/mean.rs:421-429 | 1/bound for finite bounds, 0 for an infinite one |
| Mean.ExpExt | src/mean.rs:526-534 | exp on finite bounds, 0 at -inf, +inf at +inf |
| Mean.GeometricMean | src/mean.rs:497-499 | the geometric mean is positive |
| Mean.GeometricSem | src/mean.rs:513-517 | geometric mean times the log-space sem |
| Mean.GeometricCiMean | src/mean.rs:526-534 | errors of the documented log-space interval (`CiMeanChecked`, TooFewSamples included) pass through; kept bounds are exp of the log-space bounds |
| Mean.HarmonicMeanOfSample | src/mean.rs:390-392 | `HarmonicMean` times Σ 1/x is n |
| Mean.HarmonicSem | src/mean.rs:407-412 | squared harmonic mean times the reciprocal-space sem |
| Mean.HarmonicCiMean | src/mean.rs:421-429 | documented inner interval (`CiMeanChecked`) at the flipped confidence, whose errors pass through; Ok when one-sided, else only InvalidBounds; kind follows the confidence; low = 1/inner high, high = 1/inner low |
| Mean.HarmonicUpperUsesInnerHigh | src/mean.rs:421-429 | an upper harmonic interval reads the high bound of the lower inner interval |
| Mean.GeometricCi | src/mean.rs:601-607 | NonPositiveValue of the first x <= 0, then the documented TooFewSamples below two values (a panic as written), else the geometric interval of the logarithms |
| Mean.HarmonicCi | src/mean.rs:601-607 | NonPositiveValue of the first x <= 0, then the documented TooFewSamples below two values (a panic as written), else the harmonic interval of the reciprocals |
| Mean.Arithmetic.constructor | src/mean.rs:237-245 | an empty register |
| Mean.Arithmetic.Append | src/mean.rs:286-291 | always Ok; count + 1, sum + x, sum of squares + x² |
| Mean.Arithmetic.Extend | src/mean.rs:215-220 | always Ok; the register absorbs xs in order |
| Mean.Arithmetic.FromIter | src/mean.rs:155-159 | a fresh register equal to the register of xs |
| Mean.Geometric.constructor | src/mean.rs:470-472 | an empty log-space register |
| Mean.Geometric.Append | src/mean.rs:484-492 | x <= 0: NonPositiveValue(x), state unchanged; else ln x appended |
| Mean.Geometric.Extend | src/mean.rs:215-220 | stops at the first x <= 0, keeping the logarithms appended before it |
| Mean.Harmonic.constructor | src/mean.rs:360-362 | an empty reciprocal-space register |
| Mean.Harmonic.Append | src/mean.rs:374-382 | x <= 0: NonPositiveValue(x), state unchanged; else 1/x appended |
| Mean.Harmonic.Extend | src/mean.rs:215-220 | stops at the first x <= 0, keeping the reciprocals appended before it |
| Proportion.CountIf | src/proportion.rs:245-257 | the number of successes is at most the number of samples |
| Proportion.CountIfConcat | src/proportion.rs:276-281 | counting a concatenation adds the counts |
| Proportion.CountFlags | src/proportion.rs:359-365 | counting true flags counts elements satisfying the condition |
| Proportion.Stats.constructor | src/proportion.rs:66-71 | the default counters are zero and valid |
| Proportion.Stats.New | src/proportion.rs:110-118 | panics iff successes > population, else those counters |
| Proportion.Stats.AddSuccess | src/proportion.rs:143-146 | both counters + 1; successes <= population kept |
| Proportion.Stats.AddFailure | src/proportion.rs:153-155 | population + 1 only; invariant kept |
| Proportion.Stats.ExtendIf | src/proportion.rs:245-257 | population grows by |data|, successes by the elements satisfying the test |
| Proportion.Stats.Extend | src/proportion.rs:223-225 | population grows by |data|, successes by the true values |
| Proportion.Stats.FromIter | src/proportion.rs:83-96 | a fresh valid `Stats` counting the flags |
| Proportion.Stats.Add | src/proportion.rs:276-281 | both counters add; validity kept |
| Proportion.MergeIsConcat | src/proportion.rs:276-281 | adding the counters of xs and ys counts xs + ys |
| Proportion.Stats.IsSignificant | src/proportion.rs:163-165 | on valid counters: > 30 samples, > 5 successes and > 5 failures |
| Proportion.IsSignificantAsWritten | src/proportion.rs:430-440 | panics iff > 30 samples, > 5 successes and more successes than samples |
| Proportion.IsSignificantPanics | src/proportion.rs:430-440 | (31, 40) panics |
| Proportion.IsSignificant | src/proportion.rs:430-440 | the criteria with the failure count guarded; agrees with the source whenever successes <= population |
| Proportion.WilsonCentre | src/proportion.rs:514-517 | centre · (n + z²) = n_s + z²/2 |
| Proportion.WilsonSpan | src/proportion.rs:514-518 | non-negative for z >= 0 and 0 <= n_s <= n |
| Proportion.Sided | src/proportion.rs:520-524 | always two-sided and valid; [c-s, c+s], [c-s, 1] or [0, c+s] by kind, InvalidBounds otherwise |
| Proportion.CiWilson | src/proportion.rs:485-525 | InvalidSuccesses, then TooFewSuccesses below 2, then TooFewFailures below 2; Ok only past all gates, two-sided, centre ∓ span by kind |
| Proportion.WilsonBounds | src/proportion.rs:514-518 | centre - span > 0 and centre + span < 1 |
| Proportion.WilsonHoldsRate | src/proportion.rs:514-524 | for a quantile in (1/2, 1) an Ok Wilson interval contains the observed proportion n_s / n |
| Proportion.WilsonWithinUnit | src/proportion.rs:485-525 | past the gates and for a quantile in (1/2, 1) the interval exists within [0, 1], strictly inside on every bound the confidence computes |
| Proportion.Truncate | src/proportion.rs:557 | k <= x < k + 1 |
| Proportion.CiWilsonRatio | src/proportion.rs:549-560 | NonPositiveValue for rate <= 0, else Wilson on floor(rate · population) successes |
| Proportion.RatioWithinPopulation | src/proportion.rs:549-560 | a rate in (0, 1] never yields more successes than samples |
| Proportion.ZNormalSpan | src/proportion.rs:625-628 | z·sqrt(p q / n) is non-negative |
| Proportion.CiZNormal | src/proportion.rs:598-634 | InvalidSuccesses, then TooFewSuccesses below 10, then TooFewFailures below 10; Ok two-sided around p = n_s / n |
| Proportion.ZNormalHoldsProportion | src/proportion.rs:598-634 | past the gates the interval exists and holds n_s / n |
| Proportion.Ci | src/proportion.rs:402-404 | the Wilson interval of the counters; within [0, 1] past the gates |
| Proportion.CiTrue | src/proportion.rs:320-327 | the Wilson interval of |data| samples and the true count |
| Proportion.CiIf | src/proportion.rs:359-365 | the Wilson interval of |data| samples and the count satisfying the condition |
| Quantile.Round | src/quantile.rs:83 | the nearest integer, halves upward |
| Quantile.Index | src/quantile.rs:136-147 | TooFewSamples(0), InvalidQuantile outside [0, 1], else min(floor(q n), n - 1) < n |
| Quantile.IndexMonotone | src/quantile.rs:136-147 | a higher quantile never has a lower index |
| Quantile.CiIndices | src/quantile.rs:73-106 | InvalidQuantile unless 0 < q < 1, then TooFewSamples below 4, then the Wilson errors and IndexError; Ok indices are < n, of the confidence's kind, ordered, and are `index` of the bounds of the Wilson interval for round(q n) successes |
| Quantile.IndicesHoldRank | src/quantile.rs:83-106 | for a quantile of the confidence in (1/2, 1), an Ok index interval holds the rank round(q n) < n |
| Quantile.IndicesAroundRank | src/quantile.rs:136-147 | `index` of proportions around k / n gives indices around k |
| Quantile.IndicesExist | src/quantile.rs:73-106 | when the Wilson gates pass the indices exist |
| Quantile.Stats.constructor | src/quantile.rs:39-41 | the given population |
| Quantile.Stats.Add | src/quantile.rs:150-159 | the populations add |
| Quantile.Stats.AddAssign | src/quantile.rs:161-166 | the population grows by the other's |
| Quantile.Stats.Ci | src/quantile.rs:73-106 | `CiIndices` on the population (so `IndicesHoldRank` applies): in range, and only for 4 <= n and 0 < q < 1 |
| Quantile.CiSortedUnchecked | src/quantile.rs:212-229 | panics iff q is outside (0, 1); index errors pass through; bounds are sorted[lo], sorted[hi] by kind |
| Quantile.SortedHoldsIndexedValue | src/quantile.rs:212-229 | on a sorted sample the value interval holds the value at every index the index interval holds |
| Quantile.ValuesAroundRank | src/quantile.rs:220-227 | bounds read at sorted indices around k enclose sorted[k] |
| Quantile.SortedGivesInterval | src/quantile.rs:212-229 | for a sorted sample and valid indices the result is Ok, two-sided, upper or lower exactly as the confidence is |
| Quantile.Insert | src/quantile.rs:283 | one longer, the same values plus x |
| Quantile.InsertSorted | src/quantile.rs:283 | insertion keeps a sequence sorted |
| Quantile.Sort | src/quantile.rs:283 | sorted, and a permutation of the sample |
| Quantile.SortedUnique | src/quantile.rs:283 | two sorted permutations of the same values are equal |
| Quantile.SortInPlace | src/quantile.rs:283 | the array ends sorted and a permutation of its old contents |
| Quantile.SinkLast | src/quantile.rs:283 | one insertion step: a[..i+1] becomes sorted, a permutation |
| Quantile.Ci | src/quantile.rs:277-285 | `ci_sorted_unchecked` of the sorted sample |
| Quantile.CiOrderIndependent | src/quantile.rs:277-285 | permuted data give the same result |
| Comparison.Diffs | src/comparison.rs:128-158 | the differences a_i - b_i over the common prefix |
| Comparison.PairDiffs | src/comparison.rs:121-126 | one difference x - y per pair |
| Comparison.Paired.constructor | src/comparison.rs:207-213 | an empty register |
| Comparison.Paired.Append | src/comparison.rs:232-234 | Ok; the register appends x |
| Comparison.Paired.AppendPair | src/comparison.rs:96-98 | Ok; the register appends a - b |
| Comparison.Paired.ExtendTuple | src/comparison.rs:121-126 | Ok; the register absorbs the pair differences |
| Comparison.Paired.Extend | src/comparison.rs:128-158 | DifferentSampleSizes(|a|, |b|) iff the lengths differ; the common prefix's differences stay appended |
| Comparison.Paired.CiMean | src/comparison.rs:228-230 | the register's documented mean interval (`CiMeanChecked`): TooFewSamples below two values where the code as written panics, centred on the mean difference |
| Comparison.Paired.Add | src/comparison.rs:237-245 | the registers merge |
| Comparison.PairedCi | src/comparison.rs:278-286 | DifferentSampleSizes for unequal lengths, else the documented mean interval of the differences (`CiMeanChecked`), TooFewSamples below two where the code as written panics |
| Comparison.PairedCiHoldsMeanDifference | src/comparison.rs:278-286 | for equal lengths >= 2 the interval exists and holds the mean difference |
| Comparison.DiffSem | src/comparison.rs:594-601 | the standard error of the difference is non-negative |
| Comparison.ShareZeroIffZero | src/comparison.rs:602-605 | each variance share s²/n is >= 0, and zero iff the std dev s is |
| Comparison.DiffDof | src/comparison.rs:602-605 | the degrees of freedom exist (no 0/0) iff some std dev is non-zero, and are then at least 1 |
| Comparison.WelchDof | src/comparison.rs:602-605 | on shares x, y >= 0 and two or more values per sample: 0/0 (None) iff both shares are 0, otherwise the degrees of freedom are at least 1 |
| Comparison.WelchBound | src/comparison.rs:602-605 | with two or more values per sample and a positive denominator, (x + y)² / (x²/(n_a+1) + y²/(n_b+1)) - 2 >= 1 |
| Comparison.CriticalAt | src/stats.rs:40-54 | the critical value picked at positive degrees of freedom, or at 0/0, is positive for a valid confidence |
| Comparison.BoundsAt | src/stats.rs:40-54 | symmetric about the centre, half-width `CriticalAt` · sem, also at 0/0 degrees of freedom |
| Comparison.DiffCritical | src/comparison.rs:607-612 | the critical value picked at those degrees of freedom is positive |
| Comparison.DiffBounds | src/comparison.rs:607-612 | symmetric about the mean difference, half-width critical value · sem |
| Comparison.UnpairedCiMean | src/comparison.rs:582-620 | kind follows the confidence; the kept bounds come from `DiffBounds`; centre mean_a - mean_b; Err only two-sided InvalidBounds |
| Comparison.DiffSpanNonNegative | src/comparison.rs:582-620 | the upper bound is at least the mean difference |
| Comparison.UnpairedHoldsDifference | src/comparison.rs:582-620 | the interval exists and holds mean_a - mean_b |
| Comparison.UnpairedSwap | src/comparison.rs:582-620 | exchanging the samples mirrors a two-sided interval around 0 |
| Comparison.Unpaired.constructor | src/comparison.rs:314-321 | two distinct empty registers |
| Comparison.Unpaired.New | src/comparison.rs:341-343 | holds the two given registers |
| Comparison.Unpaired.FromIter | src/comparison.rs:365-374 | Ok; the registers of each sample |
| Comparison.Unpaired.AppendA | src/comparison.rs:456-458 | only the first register appends x |
| Comparison.Unpaired.AppendB | src/comparison.rs:467-469 | only the second register appends x |
| Comparison.Unpaired.AppendPair | src/comparison.rs:443-447 | one value appended to each register |
| Comparison.Unpaired.ExtendA | src/comparison.rs:492-494 | only the first register absorbs xs |
| Comparison.Unpaired.ExtendB | src/comparison.rs:517-519 | only the second register absorbs ys |
| Comparison.Unpaired.Extend | src/comparison.rs:545-553 | each register absorbs its own sample; sizes may differ |
| Comparison.Unpaired.CiMean | src/comparison.rs:582-620 | the unpaired interval of the current registers |
| Comparison.Unpaired.Add | src/comparison.rs:669-678 | each register merges with its counterpart |
| Comparison.UnpairedCi | src/comparison.rs:710-752 | the unpaired interval of the two samples' registers, centred on Σx/n_a - Σy/n_b |
| Comparison.UnpairedCiIncremental | src/comparison.rs:662-666 | `Unpaired::ci` (default, extend, ci_mean) equals `unpaired_ci` |
| Comparison.UnpairedCiHoldsDifference | src/comparison.rs:710-752 | for two samples of >= 2 values the interval exists and holds the mean difference |

## Left out

- Floating point is not modelled. All arithmetic is exact over `real`, so the Kahan compensation, NaN and rounding of `1 - (1 - c)/2` are absent.
- `FloatConversionError` and `try_f64`/`convert` (src/error.rs) are left out. They only fail for non-`f64` float types or NaN.
- The Student-t and normal inverse CDFs (a foreign library) and their cache are not modelled. They are the `tInv`/`zInv` fields of `Numerics`, with positivity above one half as their only property.
- `sqrt`, `ln` and `exp` are likewise parameters. So is the value of `1/0`, which one harmonic path takes.
- `Comparison.UnpairedCiMean`, `Comparison.Unpaired.CiMean`, `Comparison.UnpairedCi` and `Utils.SampleLenMeanStdDevWithTransform` require two or more values per sample. With one value the source divides 0 by 0 and returns NaN bounds or a NaN standard deviation, which exact arithmetic cannot express (the unpaired documentation, src/comparison.rs:568 and 638, promises `TooFewSamples` instead); with none, `sample_variance`'s `count - 1` overflows `usize` (a debug-build panic) in the unpaired case and the mean is NaN in the utility. `Mean.CiMean` keeps `count >= 2` as the core formula; fewer values are handled by `Mean.CiMeanAsWritten` and `Mean.CiMeanChecked`.
- `Comparison.UnpairedCiIncremental` (`Unpaired::ci`, src/comparison.rs:662-666) inherits that requirement of two or more values per sample from `Comparison.Unpaired.CiMean` and `Comparison.UnpairedCi`, for the same reason.
- `Mean.Ci`, `Mean.GeometricCiMean`, `Mean.HarmonicCiMean`, `Mean.GeometricCi`, `Mean.HarmonicCi`, `Comparison.Paired.CiMean` and `Comparison.PairedCi` are built on `Mean.CiMeanChecked`, the corrected half of the src/mean.rs:301-314 finding. Below two values they return `TooFewSamples` where the code as written panics (`Mean.CiMeanAsWritten`; `Mean.CiAgreesAsWritten` states where the two differ for `Mean.Ci`).
- `Proportion.CiZNormal` excludes population 0 with successes 0 by `requires`. That is the 0/0 NaN case in the source.
- `Comparison.DiffDof`: when both standard deviations are 0 the degrees of freedom are 0/0 (NaN). No comparison with NaN holds, so the source takes the normal branch; `None` models that value.
- `Proportion.Truncate` does not model the saturating `as usize` cast. Products above `usize::MAX` cannot arise from counts of real data, and negative products are rejected before the cast.
- `Proportion.IsSignificantAsWritten` models the overflowing subtraction as the debug-build panic. A release build wraps around and answers true.
- `Quantile.Ci` and the quantile functions are specialised from a generic `T: PartialOrd` to `real`. The sort comparator's `unwrap` on NaN does not arise.
- `Quantile.SortInPlace` is an insertion sort. It stands in for the library `sort_by`; only sortedness and permutation are claimed, not the library's algorithm or stability.
- In `ci_sorted_unchecked`, the `(None, None)` arm is kept but cannot be reached, because an index interval always has a bound.
- `Stats::ci` converts the Wilson interval to a float pair with `into()`. The Wilson interval is always two-sided, so the pair is its two bounds; the ±MAX/MIN conversions of one-sided intervals are not modelled.
- The `low`/`high`/`low_i`/`high_i`/`low_u`/`high_u`/`low_as_ref`/`high_as_ref` accessors are not modelled beyond `Left`/`Right`/`LowF`/`HighF`. Nor are the integer tuple macros, `RangeInclusive`/`RangeFrom`/`RangeToInclusive` conversions, `approx`, `serde`, `Hash`, `Display`, `Clone` and `AsRef`.
- `Confidence::new` is the same function as `new_two_sided`. `level`, `kind`, `is_two_sided`, `is_upper` and `is_lower` are the datatype's own field and discriminators. `TryFrom<f32>` is `TryFrom<f64>` after a widening.
- `InvalidConfidenceLevel` checks at the callers are not modelled separately. Confidences are built through the checked constructors.
- `Mean.Arithmetic.Extend` always succeeds, since `append` cannot fail for `Arithmetic`. `sample_count` and the `stats_a`/`stats_b` accessors are plain field reads.
- `Paired::ci` has the same body as `paired_ci` and is modelled by `Comparison.PairedCi`.
- Paired `sample_mean`/`sample_sem`/`sample_count` delegate to the register and are its functions.
- Concurrency is out of scope: the parallel reductions in the examples are reduced to the sequential merge algebra (`Mean.MergeMonoid`).

## Findings

| source | as written | input that shows it | evidently intended | confidence | as-written member | corrected member |
|---|---|---|---|---|---|---|
| src/proportion.rs:430-440 | `population - successes > 5` on `usize` after only the population and success tests | population 31, successes 40: the subtraction underflows (a panic in debug builds) | false whenever there are more successes than samples | high, not executed | Proportion.IsSignificantAsWritten (shown by Proportion.IsSignificantPanics) | Proportion.IsSignificant |
| src/mean.rs:301-314 | `ci_mean` passes n - 1 degrees of freedom to `t_value`, whose `StudentsT::new(..).unwrap()` (src/stats.rs:33-36) panics for 0 or fewer | a register holding one value (or none, where `count - 1` already overflows) | `Err(TooFewSamples(n))`, as the `ci` documentation promises (src/mean.rs:591, src/comparison.rs:568) | high, not executed | Mean.CiMeanAsWritten (shown by Mean.SingleSamplePanics and Mean.CiAgreesAsWritten) | Mean.CiMeanChecked |
