/** Stock failure-compatible datatypes: a Java reference that may be null becomes an
    Option, a void method that may throw becomes an Outcome, a value-returning method
    that may throw becomes a Result. */
module Wrappers {

  datatype Option<+T> = None | Some(value: T) {
    /** The value, or `default` when there is none. */
    function GetOr(default: T): T {
      match this
      case Some(v) => v
      case None => default
    }
  }

  datatype Outcome<+E> = Pass | Fail(error: E)

  datatype Result<+R, +E> = Success(value: R) | Failure(error: E)
}
