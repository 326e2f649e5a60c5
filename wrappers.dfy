/** Optional values and the outcome of a call that either succeeds or fails with a message. */
module Wrappers {

  /** A value that may be absent: `null` or `undefined` in the application. */
  datatype Option<+T> = None | Some(value: T)

  /** The outcome of a remote call: a value, or the error it reported. */
  datatype Result<+R, +E> = Success(value: R) | Failure(error: E)
}
