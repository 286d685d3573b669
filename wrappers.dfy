/** The `Option` type shared by the store models. */
module Wrappers {

  /** A value that may be absent: a missing file, a missing JSON key, a
      `null` read back from browser storage. */
  datatype Option<+T> = None | Some(value: T) {

    /** The carried value, or `default` when there is none. */
    function GetOr(default: T): T
    {
      match this
      case Some(v) => v
      case None => default
    }
  }
}
