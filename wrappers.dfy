/** Plain `Option`, `Outcome` and `Result` value types shared by the other modules. */
module Wrappers {

  /** A value that may be absent (Kotlin's nullable `T?`). */
  datatype Option<+T> = None | Some(value: T) {

    /** Kotlin's elvis operator `this ?: default`. */
    function GetOr(default: T): T {
      match this
      case Some(v) => v
      case None => default
    }
  }

  /** The outcome of an action that returns nothing but may fail with an error. */
  datatype Outcome<+E> = Pass | Fail(error: E)

  /** The outcome of an action that returns a value or fails with an error. */
  datatype Result<+R, +E> = Success(value: R) | Failure(error: E)
}
