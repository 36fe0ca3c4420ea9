/** The optional-value datatype used for `T | undefined` in the model. */
module Wrappers {

  /** `None` stands for JavaScript's `undefined`; `Some(v)` for a defined value. */
  datatype Option<+T> = None | Some(value: T) {

    /** The wrapped value, or `default` when there is none. */
    function GetOr(default: T): T {
      match this
      case Some(v) => v
      case None => default
    }
  }
}
