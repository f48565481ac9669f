/** Optional values: `None` stands for JavaScript's `undefined` (a missing key,
    an absent prop, a `null` state) and, for numbers, for `NaN`. */
module Wrappers {

  datatype Option<+T> = None | Some(value: T) {

    /** The value, or `default` when there is none (JavaScript's `x ?? default`). */
    function GetOr(default: T): T {
      match this
      case Some(v) => v
      case None => default
    }
  }
}
