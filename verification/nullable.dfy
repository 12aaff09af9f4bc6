/** The values the source writes as `T | null`. */
module Nullable {

  datatype Option<+T> = None | Some(value: T) {

    /** The held value, or `default` for `null`. */
    function GetOr(default: T): T {
      match this
      case Some(v) => v
      case None => default
    }
  }
}
