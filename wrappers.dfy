/** Option and Result: the shapes the Python code expresses with `None` returns and exceptions. */
module Wrappers {

  datatype Option<+T> = None | Some(value: T) {
    /** The value, or `default` when there is none. */
    function GetOr(default: T): T {
      match this
      case Some(v) => v
      case None => default
    }
  }

  /** `Failure` stands for an exception the operation raises (and does not catch). */
  datatype Result<+R, +E> = Success(value: R) | Failure(error: E)
}
