/** Optional values: a missing dictionary entry or a JavaScript `undefined`/`null`. */
module Wrappers {

  datatype Option<+T> = None | Some(value: T) {

    /** The value when present, the default otherwise (the `x || d` idiom for non-falsy x). */
    function GetOr(default: T): T {
      match this
      case Some(v) => v
      case None => default
    }
  }
}
