/** Presence and failure wrappers shared by the converter model. */
module Wrappers {

  /** A JSON field that may be absent (undefined or null in the script). */
  datatype Option<+T> = None | Some(value: T) {

    /** The value, or `default` when absent. */
    function GetOr(default: T): T {
      match this
      case Some(v) => v
      case None => default
    }
  }

  /** The outcome of a step that may abort the whole conversion. */
  datatype Result<+T, +E> = Ok(value: T) | Err(error: E)
}
