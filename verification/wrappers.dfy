/** The optional-value datatype used across the model for JavaScript's
    `null`/`undefined` results, missing fields and `NaN`. */
module Wrappers {

  datatype Option<+T> = None | Some(value: T) {

    /** The present value, or `default` in its place. */
    function GetOr(default: T): T {
      match this
      case Some(v) => v
      case None => default
    }
  }
}
