/**
 * The `CalculationService` boundary: one call `addTwoTo(int)` that either
 * returns an int or throws an `Exception`. The exception becomes the `Failure` variant;
 * its message is never looked at by the caller, so it is not carried.
 */
module Service {
  import opened JavaInt

  datatype Outcome = Value(value: Int32) | Failure
}
