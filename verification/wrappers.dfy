/** Optional values and results with an error, as used across the model. */
module Wrappers {

  /** A value that may be absent (`undefined` in the source). */
  datatype Option<+T> = None | Some(value: T)

  /** A computation that either produces a value or fails with an error. */
  datatype Result<+T, +E> = Ok(value: T) | Err(error: E)
}
