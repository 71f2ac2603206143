/** Option and Result, the two failure-carrying datatypes the configuration model uses. */
module Wrappers {

  /** An optional value: `None` stands for Python's "argument not supplied". */
  datatype Option<+T> = None | Some(value: T) {

    /** The carried value, or `default` when there is none. */
    function GetOr(default: T): T {
      match this
      case Some(v) => v
      case None => default
    }
  }

  /** The outcome of an operation that may raise: `Failure` carries the exception. */
  datatype Result<+T, +E> = Success(value: T) | Failure(error: E)
}
