/** Absent-or-present values. `None` stands for JavaScript's `null` and
    `undefined` alike: a JSON field the client left out, or a NULL column. */
module Wrappers {

  datatype Option<+T> = None | Some(value: T) {

    /** The value, or `default` when absent. */
    function GetOr(default: T): T {
      match this
      case Some(v) => v
      case None => default
    }
  }
}
