/** Failure-carrying datatypes used for the client's nullable values and thrown errors. */
module Wrappers {

  /** A value that may be JavaScript `null`/`undefined` (None). */
  datatype Option<+T> = None | Some(value: T)

  /** The outcome of an operation that either yields a value or throws. */
  datatype Result<+R, +E> = Success(value: R) | Failure(error: E)

  /** The outcome of an operation that returns nothing or throws. */
  datatype Outcome<+E> = Pass | Fail(error: E)
}
