/** Failure-compatible wrappers used across the model: Option for JavaScript's
    `undefined`/`null`, Outcome for "the call threw (and was caught and logged)". */
module Wrappers {

  datatype Option<+T> = None | Some(value: T) {
    function GetOr(default: T): T {
      match this
      case Some(v) => v
      case None => default
    }
  }

  /** The result of a step that may fail; the failure carries what was logged. */
  datatype Outcome<+E> = Pass | Fail(error: E) {
    predicate IsFailure() {
      Fail?
    }
  }
}
