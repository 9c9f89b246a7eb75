/** The optional-value and outcome datatypes that stand for TypeScript's
    `T | null` and for a guard that either returns or throws. */
module Wrappers {

  /** A value that may be absent (`null` in the source). */
  datatype Option<+T> = None | Some(value: T)

  /** The result of an operation that either returns a value or throws. */
  datatype Result<+R, +E> = Success(value: R) | Failure(error: E)

  /** The result of a guard that either returns nothing or throws. */
  datatype Outcome<+E> = Pass | Fail(error: E)
}
