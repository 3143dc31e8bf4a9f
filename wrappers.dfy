/** Optional values and success/failure results shared by the modules of this model. */
module Wrappers {

  /** A value that may be absent (JavaScript's `undefined`/`null`). */
  datatype Option<+T> = None | Some(value: T)

  /** The outcome of an operation that either resolves or rejects. */
  datatype Result<+T, +E> = Success(value: T) | Failure(error: E)
}
