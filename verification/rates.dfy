/**
 The pacing bounds `--rate-min` and `--rate-max` and the check `main` makes
 on them before any producer is created.

 The bounds are Python floats (argparse's `type=float`), so besides finite
 values they can be the infinities and NaN. Comparisons follow IEEE 754:
 every comparison with NaN is false.
 */
module Rates {

  /** A Python float, with the finite part kept exact. */
  datatype Float = Finite(v: real) | PosInf | NegInf | NaN

  const Zero: Float := Finite(0.0)

  /** IEEE 754 `a < b`. */
  predicate Less(a: Float, b: Float)
  {
    match (a, b)
    case (NaN, _) => false
    case (_, NaN) => false
    case (Finite(x), Finite(y)) => x < y
    case (NegInf, NegInf) => false
    case (NegInf, _) => true
    case (_, NegInf) => false
    case (PosInf, _) => false
    case (Finite(_), PosInf) => true
  }

  /** The outcome of `main`'s checks on the bounds, in the order it makes them. */
  datatype RateCheck = Accepted | NegativeRate | MinAboveMax

  /**
   First `rate_min < 0 or rate_max < 0`, then `rate_min > rate_max`; either
   one makes `main` return before the producer exists. For bounds that are
   not NaN this accepts exactly `0 <= rate_min <= rate_max`; a NaN bound
   fails neither test and is accepted unless the other bound is negative.
   */
  function CheckRates(rateMin: Float, rateMax: Float): (r: RateCheck)
    ensures r == NegativeRate <==> Less(rateMin, Zero) || Less(rateMax, Zero)
    ensures rateMin != NaN && rateMax != NaN ==>
      (r == Accepted <==> AtMost(Zero, rateMin) && AtMost(Zero, rateMax) && AtMost(rateMin, rateMax))
    ensures rateMin == NaN || rateMax == NaN ==> r != MinAboveMax
    ensures r == MinAboveMax ==>
      rateMin != NaN && rateMax != NaN && AtMost(Zero, rateMax) && Less(rateMax, rateMin)
  {
    if Less(rateMin, Zero) || Less(rateMax, Zero) then NegativeRate
    else if Less(rateMax, rateMin) then MinAboveMax
    else Accepted
  }

  /** The loop starts only for accepted bounds. */
  predicate RatesAccepted(rateMin: Float, rateMax: Float)
  {
    CheckRates(rateMin, rateMax) == Accepted
  }

  /** `a <= b` for values that are not NaN. */
  predicate AtMost(a: Float, b: Float)
  {
    Less(a, b) || a == b
  }

  /**
   For bounds that are not NaN, the checks accept exactly the bounds with
   `0 <= rate_min <= rate_max`: both bounds non-negative and ordered.
   */
  lemma AcceptedIffNonNegativeAndOrdered(rateMin: Float, rateMax: Float)
    requires rateMin != NaN && rateMax != NaN
    ensures RatesAccepted(rateMin, rateMax) <==>
      AtMost(Zero, rateMin) && AtMost(Zero, rateMax) && AtMost(rateMin, rateMax)
  {
  }

  /**
   The checks are written as rejections, so NaN slips through: a NaN bound is
   accepted whenever the other bound is not negative.
   */
  lemma NaNBoundIsAccepted(other: Float)
    ensures RatesAccepted(NaN, other) <==> !Less(other, Zero)
    ensures RatesAccepted(other, NaN) <==> !Less(other, Zero)
  {
  }
}
