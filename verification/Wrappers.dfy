/** Optional values and success/failure results, shared by every module of the model. */
module Wrappers {

  /** A value that may be missing: JavaScript's `undefined` for a field or an unset variable. */
  datatype Option<+T> = None | Some(value: T)

  /** The outcome of an awaited call that either resolves with a value or rejects with an error. */
  datatype Result<+R, +E> = Success(value: R) | Failure(error: E)
}
