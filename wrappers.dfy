/** The optional value that Java's `Optional` and a failed match stand for. */
module Wrappers {

  datatype Option<+T> = None | Some(value: T) {

    /** `Optional.orElse`: the value if there is one, otherwise `default`. */
    function GetOr(default: T): T {
      match this
      case Some(v) => v
      case None => default
    }
  }
}
