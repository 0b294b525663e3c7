/** Optional values and error results shared by every part of the model. */
module Basics {

  /** A value that may be absent: JavaScript's `null` and Python's `None`. */
  datatype Option<+T> = None | Some(value: T)

  /** The outcome of a computation that can raise. */
  datatype Result<+T, +E> = Ok(value: T) | Err(error: E)
}
