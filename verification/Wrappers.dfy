/** The two failure-carrying datatypes the models share. */
module Wrappers {

  /** A value the program may not have (Python's None). */
  datatype Option<+T> = None | Some(value: T)

  /** The outcome of an operation that may raise. */
  datatype Result<+T, +E> = Ok(value: T) | Err(error: E)
}
