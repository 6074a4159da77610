/** Failure-carrying values used where the original program throws or omits an argument. */
module Wrappers {

  datatype Option<+T> = None | Some(value: T)

  /** A computed value, or the error the original program would have thrown. */
  datatype Result<+T, +E> = Ok(value: T) | Err(error: E)

  /** The outcome of an operation that returns nothing but may throw. */
  datatype Outcome<+E> = Pass | Fail(error: E)
}
