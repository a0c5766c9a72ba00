/** Option and error-outcome datatypes shared by the quiz modules. */
module Wrappers {

  /** The result of a parse such as `toIntOrNull`: a value, or nothing. */
  datatype Option<+T> = None | Some(value: T) {

    /** The wrapped value, or `default` when there is none (Kotlin's `?:`). */
    function GetOr(default: T): (r: T)
      ensures Some? ==> r == value
      ensures None? ==> r == default
    {
      match this
      case Some(v) => v
      case None => default
    }
  }

  /** A computed value, or the error that stopped its computation. */
  datatype Result<+T, +E> = Success(value: T) | Failure(error: E)

  /** An operation that returns nothing but may fail. */
  datatype Outcome<+E> = Pass | Fail(error: E)
}
