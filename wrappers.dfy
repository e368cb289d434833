/** The Option, Result and Outcome types shared by the other modules. */
module Wrappers {

  /** A value that may be absent: a null pointer or a null date-time. */
  datatype Option<+T> = None | Some(value: T)

  /** The value of an operation that may throw instead. */
  datatype Result<+T, +E> = Ok(value: T) | Err(error: E)

  /** The outcome of a void operation that may throw. */
  datatype Outcome<+E> = Pass | Fail(error: E)
}
