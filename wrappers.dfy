/** Failure-compatible wrappers used across the model: an optional value
    (a JavaScript `undefined`/`null`), a value-or-error result (a resolved or
    rejected promise, a returned value or a thrown Error) and a pass/fail
    outcome (a `Promise<void>` that resolves or rejects). */
module Wrappers {

  datatype Option<+T> = None | Some(value: T) {
    function GetOr(default: T): T {
      match this
      case Some(v) => v
      case None => default
    }
  }

  datatype Result<+R, +E> = Ok(value: R) | Err(error: E)

  datatype Outcome<+E> = Pass | Fail(error: E)
}
