/** The optional value used where the source reads "absent or present". */
module Wrappers {

  datatype Option<+T> = None | Some(value: T) {

    /** The value, or `default` when absent, as `os.environ.get(name, default)` reads an unset variable. */
    function GetOr(default: T): T {
      match this
      case Some(v) => v
      case None => default
    }
  }
}
