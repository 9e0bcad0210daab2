/** Optional values, results and bounds, as the rest of the model uses them. */
module Wrappers {
  datatype Option<+T> = None | Some(value: T) {
    /** Python's `value or default`, for a value whose absence is the only falsy case. */
    function GetOr(default: T): T {
      match this
      case Some(v) => v
      case None => default
    }
  }

  datatype Result<+T, +E> = Success(value: T) | Failure(error: E) {
    function GetOr(default: T): T {
      if Success? then value else default
    }
  }

  function Max(a: int, b: int): int { if a < b then b else a }

  function Min(a: int, b: int): int { if a < b then a else b }
}
