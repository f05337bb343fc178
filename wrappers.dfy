/** Option and Result values shared by the configuration resolver. */
module Wrappers {

  /** A value that may be absent: a JSON key or a command-line flag that was not given. */
  datatype Option<+T> = None | Some(value: T) {
    /** The carried value, or `default` when there is none. */
    function GetOr(default: T): (v: T) {
      match this
      case Some(v) => v
      case None => default
    }
  }

  /** The outcome of a check that either yields a value or a diagnostic line. */
  datatype Result<+T> = Ok(value: T) | Err(msg: string)
}
