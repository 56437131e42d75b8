/** The optional value used wherever the app works with `undefined`, `null`
    or a value that JavaScript arithmetic would turn into NaN. */
module Wrappers {

  datatype Option<+T> = None | Some(value: T) {

    /** The wrapped value, or `default` when there is none. */
    function GetOr(default: T): T {
      match this
      case Some(v) => v
      case None => default
    }
  }
}
