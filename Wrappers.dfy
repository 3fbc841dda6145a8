/** Option and Result: the model's stand-ins for Java's null and for exceptions. */
module Wrappers {

  /** A nullable value: `None` plays the part of Java's `null`. */
  datatype Option<+T> = None | Some(value: T) {

    /** The value if present, otherwise `default` (Java: `x != null ? x : default`). */
    function GetOr(default: T): T {
      match this
      case Some(v) => v
      case None => default
    }
  }

  /** Either a value or the exception that escaped. */
  datatype Result<+R, +E> = Success(value: R) | Failure(error: E)
}
