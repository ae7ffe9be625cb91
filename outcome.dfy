/** Optional values and the outcome of an operation that may fail. */
module Outcome {

  /** A value that may be missing (`null` or `undefined` in the original code). */
  datatype Option<+T> = None | Some(value: T)

  /** The settled state of a promise: resolved with a value, or rejected with an error. */
  datatype Result<+T, +E> = Ok(value: T) | Err(error: E)
}
