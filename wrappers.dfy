/** Ruby's `nil`-or-value and raise-or-return, as data. */
module Wrappers {

  /** A Ruby value that may be `nil`. */
  datatype Option<+T> = None | Some(value: T) {

    /** The value, or `default` when it is `nil` (Ruby's `x || default`). */
    function GetOr(default: T): T {
      match this
      case Some(v) => v
      case None => default
    }
  }

  /** The way a call ends: it returns normally, or it raises `error`. */
  datatype Outcome<+E> = Pass | Fail(error: E)
}
