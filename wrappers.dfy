/** Option, used for JavaScript's `undefined` and for absent values. */
module Wrappers {

  datatype Option<+T> = None | Some(value: T) {

    /** `this ?? default` for a value that cannot be null */
    function GetOr(default: T): T {
      match this
      case Some(v) => v
      case None => default
    }
  }
}
