/** Failure-compatible wrappers for values that may be absent and for
    computations that may fail with an error value. */
module Wrappers {

  /** A value that may be absent, such as the value of a missing JSON key. */
  datatype Option<+T> = None | Some(value: T)

  /** The result of a computation that either yields a value or fails with an error. */
  datatype Result<+T, +E> = Success(value: T) | Failure(error: E)
}
