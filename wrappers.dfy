/** Small failure-carrying datatypes shared by the pages. */
module Wrappers {

  /** A value that may be absent: a JSON field that is `null`/`undefined`, or a search that found nothing. */
  datatype Option<+T> = None | Some(value: T) {

    /** `x ?? default` */
    function GetOr(default: T): T {
      match this
      case Some(v) => v
      case None => default
    }
  }

  /** The outcome of one HTTP request: the response body, or a failure (network error, error status). */
  datatype Fetch<+T> = Failed | Received(body: T)
}
