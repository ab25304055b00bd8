/** Failure-carrying datatypes shared by the other modules. */
module Wrappers {

  /** A value that may be absent (TypeScript's `T | null` or an optional field). */
  datatype Option<+T> = None | Some(value: T)

  /** The settled state of a promise that yields a value: resolved or rejected. */
  datatype Result<+T, +E> = Ok(value: T) | Err(error: E)

  /** The settled state of a promise that yields nothing: resolved or rejected. */
  datatype Outcome<+E> = Pass | Fail(error: E)
}
