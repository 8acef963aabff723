/** Optional values and results with an error, shared by every module of the model. */
module Wrappers {

  /** A value that may be absent: JavaScript's `undefined`/`null` results. */
  datatype Option<+T> = None | Some(value: T)

  /** The outcome of an operation that may fail instead of producing a value. */
  datatype Result<+T, +E> = Ok(value: T) | Err(error: E)
}
