/**
 * Failure-carrying wrappers shared by every module of the model: an optional
 * value (Kotlin's nullable types) and a value-or-error (a call that either
 * returns or throws).
 */
module Base {

  datatype Option<+T> = None | Some(value: T)

  datatype Result<+T, +E> = Ok(value: T) | Err(error: E)

  /** A call that returns nothing on success, or throws `error`. */
  datatype Outcome<+E> = Pass | Fail(error: E)
}
