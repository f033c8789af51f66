/** Failure-carrying results shared by the domain model and the persistence layer. */
module Wrappers {

  /** A value the caller may leave absent (Python's `None`). */
  datatype Option<+T> = None | Some(value: T)

  /** The kinds of error the domain layer raises.
      InvalidArgument and DuplicateIdentity are both a `ValueError` in the
      system; FileNotFound is the error of opening or removing a missing file. */
  datatype Error = InvalidArgument | DuplicateIdentity | FileNotFound

  /** The result of an operation that returns a value or raises. */
  datatype Result<+R> = Ok(value: R) | Err(error: Error)

  /** The result of an operation that returns nothing or raises. */
  datatype Outcome = Pass | Fail(error: Error)
}
