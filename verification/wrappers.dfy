/** The optional-value and request-outcome types shared by every module of the model. */
module Wrappers {

  /** A value that may be missing: a dictionary key that is absent, a provider
      that returned nothing, a pandas cell that is NaN. */
  datatype Option<+T> = None | Some(value: T) {

    /** The wrapped value, or `default` when there is none (Python's `d.get(k, default)`). */
    function GetOr(default: T): T {
      match this
      case Some(v) => v
      case None => default
    }
  }

  /** What an HTTP request came back with: it raised (a timeout, a refused
      connection, a body that is not JSON), it answered with a status other
      than 200, or it answered 200 with `body`. */
  datatype Reply<+T> = Raised | Refused | Answered(body: T)
}
