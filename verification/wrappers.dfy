/** Wrappers used across the model: an optional value, a value-or-error
    result, and a pass/fail outcome that carries only an error. */
module Wrappers {

  /** A value that may be absent (a missing header, a failed search). */
  datatype Option<+T> = None | Some(value: T)

  /** Either a value or the error that replaced it (a thrown exception). */
  datatype Result<+R, +E> = Success(value: R) | Failure(error: E)

  /** The completion of an operation that returns nothing but may throw. */
  datatype Outcome<+E> = Pass | Fail(error: E)
}
