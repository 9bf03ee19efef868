/** Option, Result and Outcome: Java's nullable values, Optional and thrown exceptions. */
module Wrappers {

  /** A value that may be absent (`null` or an empty `Optional` in the source). */
  datatype Option<+T> = None | Some(value: T)

  /** A computation that either returns a value or throws an error. */
  datatype Result<+R, +E> = Success(value: R) | Failure(error: E)

  /** A `void` computation that either returns normally or throws an error. */
  datatype Outcome<+E> = Pass | Fail(error: E)
}
