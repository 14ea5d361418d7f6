/** Optional values and results with an error, used for Ruby's `nil` and raised exceptions. */
module Wrappers {

  /** A value that may be absent (Ruby `nil`). */
  datatype Option<+T> = None | Some(value: T)

  /** The outcome of an operation that may raise. */
  datatype Result<+T, +E> = Success(value: T) | Failure(error: E)
}
