/** Option and Result, shared by the data modules. */
module Wrappers {

  /** A value that may be missing; a pandas NaN cell is `None`. */
  datatype Option<+T> = None | Some(value: T)

  /** The outcome of an operation that may raise. */
  datatype Result<+T, +E> = Ok(value: T) | Err(error: E)
}
