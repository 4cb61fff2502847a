/** Optional values and results used throughout the model. */
module Wrappers {

  /** A value that may be absent (`undefined` / `null` in the dashboard's code). */
  datatype Option<+T> = None | Some(value: T)

  /** The outcome of an operation that either yields a value or fails with an error. */
  datatype Result<+T, +E> = Success(value: T) | Failure(error: E)
}
