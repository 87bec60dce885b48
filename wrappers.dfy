/** Option type used for Python's `None` results and absent dictionary keys. */
module Wrappers {

  datatype Option<+T> = None | Some(value: T) {

    /** Python's `x if x is not None else default` and `d.get(k, default)`. */
    function GetOr(default: T): T {
      match this
      case Some(v) => v
      case None => default
    }
  }
}
