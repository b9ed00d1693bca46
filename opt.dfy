/** Absent-or-present values: JavaScript's `undefined` (or `null`) next to a value. */
module Opt {

  datatype Option<+T> = None | Some(value: T) {

    /** The value, or `default` when absent: the `??` operator. */
    function GetOr(default: T): T {
      match this
      case Some(v) => v
      case None => default
    }
  }
}
