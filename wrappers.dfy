/** An optional value: a JavaScript property that is either present or absent. */
module Wrappers {

  datatype Option<T> = None | Some(value: T) {

    /** The value when present, `fallback` otherwise. */
    function GetOr(fallback: T): T {
      match this
      case Some(v) => v
      case None => fallback
    }
  }
}
