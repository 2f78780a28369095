/** Optional values and results with an error, standing for `undefined` and thrown errors. */
module Wrappers {

  /** A value that may be absent (`undefined` or `null` in the page's code). */
  datatype Option<+T> = None | Some(value: T)

  /** The outcome of an operation that may throw. */
  datatype Result<+R, +E> = Success(value: R) | Failure(error: E)
}
