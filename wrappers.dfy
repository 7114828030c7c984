/** Option and Outcome datatypes shared by the model. */
module Wrappers {

  /** A value that may be absent (`undefined` in the source). */
  datatype Option<+T> = None | Some(value: T)

  /** A value, or the error that was thrown instead of producing it. */
  datatype Result<+T, +E> = Ok(value: T) | Err(error: E)

  /** Completion of an operation that produces no value but may throw. */
  datatype Outcome<+E> = Pass | Fail(error: E)
}
