/** Result types for checks that can fail: the Java code signals every
    failed check by throwing IllegalArgumentException, which this model
    turns into a returned error. */
module Wrappers {

  /** Either a value or the error that stopped the computation. */
  datatype Result<+T, +E> = Success(value: T) | Failure(error: E)

  /** A check that either passes or fails with an error, carrying no value. */
  datatype Outcome<+E> = Pass | Fail(error: E)
}
