/** Failure-carrying shapes used across the order model. */
module Wrappers {

  /** A value that may be absent: an optional form field or a failed lookup. */
  datatype Option<+T> = None | Some(value: T)

  /** The outcome of an operation that can be refused with a reason. */
  datatype Result<+T, +E> = Ok(value: T) | Err(error: E)
}
