/** Option and Result, the shapes Kotlin's nullable values and thrown exceptions take in this model. */
module Outcomes {

  /** A Kotlin nullable value: `None` plays `null`. */
  datatype Option<+T> = None | Some(value: T) {

    /** Kotlin's elvis operator `this ?: default`. */
    function GetOr(default: T): (r: T)
      ensures Some? ==> r == value
      ensures None? ==> r == default
    {
      match this
      case Some(v) => v
      case None => default
    }
  }

  /** The outcome of a call that may throw: either its value or the exception it threw. */
  datatype Result<+T, +E> = Success(value: T) | Failure(error: E)
}
