/** Option and Result, the two failure-carrying shapes used throughout the model. */
module Wrappers {
  /** A value that may be absent: JavaScript's `null` / `''` / missing key. */
  datatype Option<+T> = None | Some(value: T)

  /** The outcome of an operation that can be rejected with a message. */
  datatype Result<+T, +E> = Success(value: T) | Failure(error: E)
}
