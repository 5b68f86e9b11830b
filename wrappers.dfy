/** A nullable column or a JavaScript value that may be `null`/`undefined`. */
module Wrappers {

  datatype Option<+T> = None | Some(value: T) {

    /** `x ?? default`, and `x || default` where the default is falsy anyway. */
    function GetOr(default: T): T {
      match this
      case Some(v) => v
      case None => default
    }
  }
}
