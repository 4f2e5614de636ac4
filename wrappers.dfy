/** The optional value that stands for JavaScript's `undefined`/`null`
    alternatives throughout the model. */
module Wrappers {

  datatype Option<+T> = None | Some(value: T) {

    /** `x ?? fallback` */
    function GetOr(fallback: T): T {
      match this
      case Some(v) => v
      case None => fallback
    }

    /** `a ?? b` where both sides are optional */
    function OrElse(other: Option<T>): Option<T> {
      if Some? then this else other
    }
  }
}
