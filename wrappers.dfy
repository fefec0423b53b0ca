/** Failure-carrying results shared by every module of the model. */
module Wrappers {

  /** A value that may be missing: JavaScript's `undefined`/`null`. */
  datatype Option<+T> = None | Some(value: T) {
    function GetOr(default: T): T {
      match this
      case Some(v) => v
      case None => default
    }
  }

  /** The outcome of an operation that may throw. */
  datatype Result<+T, +E> = Ok(value: T) | Err(error: E)

  /** An exception thrown by the JavaScript runtime (`TypeError`) or by the
      program itself (`new Error(message)`). */
  datatype JsError = TypeError(message: string) | Error(message: string)
}
