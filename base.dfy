/** Option and Result: Java's null/Optional and thrown exceptions become values. */
module Base {

  datatype Option<+T> = None | Some(value: T) {
    /** The value, or `default` when absent (JavaScript's `x || default` on a truthy x). */
    function GetOr(default: T): T {
      match this
      case Some(v) => v
      case None => default
    }
  }

  /** A call that either returns a value or throws the exception `error`. */
  datatype Result<+T, +E> = Success(value: T) | Failure(error: E)
}
