/**
 * Value arithmetic shared by both view models: a closed range and the clamped
 * single steps `min(upper, value + step)` and `max(lower, value - step)`.
 * Values and strides are modelled as real numbers, so `advanced(by:)` is `+`.
 */
module Stepping {

  datatype Range = Range(lowerBound: real, upperBound: real)

  /** Swift's `ClosedRange`: forming `a...b` with `a > b` traps, so every range has lowerBound <= upperBound. */
  type ClosedRange = r: Range | r.lowerBound <= r.upperBound witness Range(0.0, 0.0)

  function Min(a: real, b: real): real { if b < a then b else a }

  function Max(a: real, b: real): real { if b >= a then b else a }

  /** The value one increment leads to: one step up, clipped to the upper bound. */
  function Incremented(value: real, step: real, bounds: ClosedRange): (r: real)
    ensures r <= bounds.upperBound && r <= value + step
    ensures r == bounds.upperBound || r == value + step
  {
    Min(bounds.upperBound, value + step)
  }

  /** The value one decrement leads to: one step down, clipped to the lower bound. */
  function Decremented(value: real, step: real, bounds: ClosedRange): (r: real)
    ensures r >= bounds.lowerBound && r >= value - step
    ensures r == bounds.lowerBound || r == value - step
  {
    Max(bounds.lowerBound, value - step)
  }

  /** A non-negative step never leaves the range once inside it. */
  lemma SteppingStaysInBounds(value: real, step: real, bounds: ClosedRange)
    requires bounds.lowerBound <= value <= bounds.upperBound && 0.0 <= step
    ensures bounds.lowerBound <= Incremented(value, step, bounds) <= bounds.upperBound
    ensures bounds.lowerBound <= Decremented(value, step, bounds) <= bounds.upperBound
  {
  }

  /**
   * An increment leaves the value unchanged exactly when it already sits on the upper
   * bound, or the step is zero and the value is not above the range.
   */
  lemma IncrementedIsNoOpIff(value: real, step: real, bounds: ClosedRange)
    requires 0.0 <= step
    ensures Incremented(value, step, bounds) == value
        <==> value == bounds.upperBound || (step == 0.0 && value <= bounds.upperBound)
  {
  }

  /** Mirror image of IncrementedIsNoOpIff for the lower bound. */
  lemma DecrementedIsNoOpIff(value: real, step: real, bounds: ClosedRange)
    requires 0.0 <= step
    ensures Decremented(value, step, bounds) == value
        <==> value == bounds.lowerBound || (step == 0.0 && value >= bounds.lowerBound)
  {
  }

  /** A decrement undoes an increment that was not clipped, and vice versa. */
  lemma StepsAreInverse(value: real, step: real, bounds: ClosedRange)
    requires bounds.lowerBound <= value <= bounds.upperBound && 0.0 <= step
    ensures value + step <= bounds.upperBound ==>
      Decremented(Incremented(value, step, bounds), step, bounds) == value
    ensures bounds.lowerBound <= value - step ==>
      Incremented(Decremented(value, step, bounds), step, bounds) == value
  {
  }
}
