/** Option and Result, the failure-compatible wrappers used for the source's
    `None` values and for the exceptions and `sys.exit` calls it raises. */
module Wrappers {

  datatype Option<T> = None | Some(value: T) {
    function GetOr(default: T): T {
      match this
      case Some(v) => v
      case None => default
    }

    /** This value when there is one, `other` otherwise. */
    function Or(other: Option<T>): Option<T> {
      if Some? then this else other
    }
  }

  datatype Result<T, E> = Success(value: T) | Failure(error: E) {
    predicate IsFailure() {
      Failure?
    }

    function PropagateFailure<U>(): Result<U, E>
      requires Failure?
    {
      Failure(error)
    }

    function Extract(): T
      requires Success?
    {
      value
    }
  }
}
