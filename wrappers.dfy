/** Option and Result, the two failure-carrying shapes the rest of the model uses
    for JavaScript's `undefined` keys and for functions that throw. */
module Wrappers {

  /** `None` stands for a missing key or an `undefined` value. */
  datatype Option<+T> = None | Some(value: T) {
    function GetOr(default: T): T {
      match this
      case Some(v) => v
      case None => default
    }
  }

  /** `Failure` stands for a function that throws instead of returning. */
  datatype Result<+T, +E> = Success(value: T) | Failure(error: E)
}
