/** Failure-carrying wrappers shared by the other modules. */
module Wrappers {

  /** A value that may be absent; stands for a Go `error` that may be nil. */
  datatype Option<+T> = None | Some(value: T)

  /** The outcome of a computation that either yields a value or fails with an error. */
  datatype Result<+T, +E> = Success(value: T) | Failure(error: E)
}
