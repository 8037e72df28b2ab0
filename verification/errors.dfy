/** The exceptions the SVG path core raises, and the wrappers that carry them. */
module Errors {

  /** The Python exception classes the core lets escape to its caller. */
  datatype Error =
    | ValueError(message: string)
    | TypeError
    | AssertionError(message: string)

  /** A value, or the exception raised instead of returning it. */
  datatype Result<T> = Ok(value: T) | Err(error: Error)

  /** The outcome of a check that returns nothing when it passes. */
  datatype Outcome = Pass | Fail(error: Error)

  /** Python's `None` or a value. */
  datatype Option<T> = None | Some(value: T)
}
