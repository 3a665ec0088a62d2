/** Optional values and the one failure the categorizer can raise. */
module Wrappers {

  datatype Option<+T> = None | Some(value: T) {
    function GetOr(default: T): T {
      match this
      case Some(v) => v
      case None => default
    }
  }

  /**
   * The outcome of a computation that may raise Python's `IndexError`
   * (the only exception the categorization core can raise: indexing the
   * second piece of a `split` that produced one piece).
   */
  datatype Result<+T> = Ok(value: T) | IndexError
}
