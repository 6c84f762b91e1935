/** Optional values and the outcome of a call that may throw. */
module Wrappers {

  /** Swift's `T?`: a value or nil. */
  datatype Option<+T> = None | Some(value: T)

  /** The outcome of a `try` call: the value it returned, or the error it threw. */
  datatype Result<+T, +E> = Success(value: T) | Failure(error: E)
}
