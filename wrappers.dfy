/** Small result types shared by every component model. */
module Wrappers {

  datatype Option<+T> = None | Some(value: T) {
    function GetOr(default: T): T {
      match this
      case Some(v) => v
      case None => default
    }
  }

  /** What an awaited API call did: it resolved, or it threw. A thrown value
      that is an `Error` carries its message; anything else carries none, and
      the handler then shows its own fallback text. */
  datatype ApiOutcome = Resolved | Threw(message: Option<string>)

  /** What an awaited fetch did: it returned a value, or it threw (with the
      thrown `Error`'s message, if what was thrown is an `Error`). */
  datatype Fetched<T> = Got(value: T) | Failed(message: Option<string>)
}
