/** `CIError`, the error values of every fallible operation of the crate. */
module Errors {
  import Intervals

  datatype CIError =
    | TooFewSamples(samples: nat)
    | TooFewSuccesses(successes: nat, population: nat, np: real)
    | TooFewFailures(failures: nat, population: nat, nq: real)
    | InvalidConfidenceLevel(level: real)
    | InvalidQuantile(quantile: real)
    | InvalidSuccesses(successes: nat, population: nat)
    | NonPositiveValue(value: real)
    | InvalidInputData
    | FloatConversionError(message: string)
    | IndexError(index: real, population: nat)
    | Error(message: string)
    | IntervalError(cause: Intervals.IntervalError)
    | DifferentSampleSizes(sizeA: nat, sizeB: nat)
}
