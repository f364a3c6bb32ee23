/** Failure-compatible wrappers shared by every module of the recall pipeline model. */
module Wrappers {

  /** A value that may be missing: an optional record field, a lookup that found nothing. */
  datatype Option<+T> = None | Some(value: T) {

    /** The carried value, or `default` when there is none. */
    function GetOr(default: T): T {
      match this
      case Some(v) => v
      case None => default
    }
  }

  /** The outcome of an operation that can fail: a fetch, a navigation, a parse.
      The failure carries a message only; no caller inspects it. */
  datatype Result<+T> = Ok(value: T) | Err(message: string)
}
