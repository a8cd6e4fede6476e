/** Optional values and results: Ruby's `nil` and raised exceptions. */
module Wrappers {

  /** `None` stands for Ruby's `nil`. */
  datatype Option<+T> = None | Some(value: T) {
    function GetOr(default: T): T {
      match this
      case Some(v) => v
      case None => default
    }
  }

  /** A call that either returns a value or raises an error. */
  datatype Result<+T, +E> = Success(value: T) | Failure(error: E)
}
