/** Optional values and results with an error, as Swift's `T?` and `throws` appear in the model. */
module Wrappers {

  /** Swift's `Optional`: `nil` is `None`. */
  datatype Option<+T> = None | Some(value: T) {
    /** Swift's `??` operator. */
    function GetOr(default: T): T {
      match this
      case Some(v) => v
      case None => default
    }
  }

  /** The outcome of a Swift function that `throws`. */
  datatype Result<+T, +E> = Ok(value: T) | Err(error: E)
}
