/** Failure-carrying values shared by the other modules. */
module Wrappers {

  /** An optional value: a JavaScript field that may be `undefined`. */
  datatype Option<+T> = None | Some(value: T)

  /** The outcome of an operation that may throw. */
  datatype Result<+T, +E> = Ok(value: T) | Err(error: E)
}
