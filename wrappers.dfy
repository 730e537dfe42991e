/** Option, used for the source's nullable values. */
module Wrappers {

  datatype Option<+T> = None | Some(value: T) {

    /** The value, or `default` where the source writes `?? default`. */
    function GetOr(default: T): T {
      match this
      case Some(v) => v
      case None => default
    }
  }
}
