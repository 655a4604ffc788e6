/** Failure-carrying datatypes shared by the rest of the model. */
module Wrappers {

  /** A value that may be missing, such as an optional key of a JavaScript object. */
  datatype Option<+T> = None | Some(value: T)

  /** The outcome of an operation that either returns a value or throws. */
  datatype Result<+T, +E> = Ok(value: T) | Err(error: E)
}
