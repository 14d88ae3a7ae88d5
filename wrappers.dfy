/** An optional value; `None` stands for a JavaScript field that is undefined or null. */
module Wrappers {

  datatype Option<T> = None | Some(value: T) {

    /** The value, or `default` when there is none (`x || default` on an array-or-nothing). */
    function GetOr(default: T): T {
      match this
      case Some(v) => v
      case None => default
    }
  }
}
