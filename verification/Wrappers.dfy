/** The two result shapes shared by the other modules. */
module Wrappers {

  /** A value that may be absent (a Python `None`, a missing row). */
  datatype Option<+T> = None | Some(value: T)

  /** The outcome of an operation that may raise a fixed error code. */
  datatype Result<+T, +E> = Ok(value: T) | Err(error: E)
}
