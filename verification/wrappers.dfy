/** Optional values and results, standing in for JavaScript's `null`/`undefined`
    and for thrown errors. */
module Wrappers {

  /** A value that may be absent (`null` or `undefined` in the source). */
  datatype Option<+T> = None | Some(value: T)

  /** The outcome of a call that may throw: `Failure` carries the error. */
  datatype Result<+R, +E> = Success(value: R) | Failure(error: E)
}
