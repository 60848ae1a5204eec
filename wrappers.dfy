/** Optional values and results with an error: how the model writes the
    source's `null`/`undefined` values and its thrown errors. */
module Wrappers {

  /** A value that may be absent (`null` or `undefined` in the source). */
  datatype Option<+T> = None | Some(value: T)

  /** The outcome of an operation that may fail with an error. */
  datatype Result<+R, +E> = Success(value: R) | Failure(error: E)
}
