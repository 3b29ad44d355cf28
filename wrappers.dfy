/** The optional value used wherever the source tests a value for being present or finite. */
module Wrappers {
  datatype Option<+T> = None | Some(value: T) {
    /** The value if present, else `default`. */
    function GetOr(default: T): T {
      match this
      case Some(v) => v
      case None => default
    }
  }
}
