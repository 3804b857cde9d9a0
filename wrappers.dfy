/** Option and the outcome of one awaited backend request. */
module Wrappers {

  datatype Option<+T> = None | Some(value: T) {
    /** The value in Some, or the given default (JavaScript's `x || default` on a missing value). */
    function GetOr(default: T): T {
      match this
      case Some(v) => v
      case None => default
    }
  }

  /** How a promise returned by the HTTP client settles: it resolves with the status the
      server sent and a body (Ok), or it rejects (Failed). Ok stands for a resolved request,
      which the client produces for 2xx statuses; the status itself is not restricted here,
      and the pages that read it compare it with one value (201). */
  datatype Response<+T> = Ok(status: int, data: T) | Failed(reason: string)
}
