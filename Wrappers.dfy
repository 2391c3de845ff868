/** The optional value used throughout the model: JavaScript's `null`/`undefined`
    and Python's `None` become `None`. */
module Wrappers {

  datatype Option<+T> = None | Some(value: T) {

    /** The value held in Some, or the given default. */
    function GetOr(default: T): T {
      match this
      case Some(v) => v
      case None => default
    }
  }
}
