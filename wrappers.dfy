/** Failure-compatible wrappers shared by every module of the model. */
module Wrappers {

  /** A Go pointer or comma-ok lookup: None stands for nil / absent. */
  datatype Option<+T> = None | Some(value: T) {
    /** The value, or `default` when absent (Go's "if p != nil { x = *p }"). */
    function GetOr(default: T): T {
      match this
      case Some(v) => v
      case None => default
    }
  }

  /** A Go `(value, error)` pair: exactly one of the two is meaningful. */
  datatype Result<+T, +E> = Success(value: T) | Failure(error: E)
}
