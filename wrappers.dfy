/** Optional values and results with an error kind, used by every other module. */
module Wrappers {

  /** A value that may be absent (Python's `None`). */
  datatype Option<+T> = None | Some(value: T)

  /** The outcome of a service call: the value it returns, or the kind of exception it raises. */
  datatype Result<+T, +E> = Success(value: T) | Failure(error: E)
}
