/** Option, Result and Outcome: the model's stand-ins for Kotlin's nullable
    types and for the exceptions the store raises. */
module Wrappers {

  /** A Kotlin `T?` value: `None` is `null`. */
  datatype Option<+T> = None | Some(value: T) {
    /** Kotlin's elvis operator `this ?: default`. */
    function GetOr(default: T): T {
      match this
      case Some(v) => v
      case None => default
    }
  }

  /** A value-returning call that either succeeds or throws. */
  datatype Result<+R, +E> = Success(value: R) | Failure(error: E)

  /** A Unit-returning call that either completes or throws. */
  datatype Outcome<+E> = Pass | Fail(error: E)
}
