/**
 * The remote API client, seen from the stores: every request settles once,
 * either with the response payload or with a failure.
 */
module Api {
  import opened Wrappers

  /**
   * What a failed request exposes to the code that catches it: the server's
   * `response.data.detail`, if any, and the error's own `message`, if any.
   */
  datatype RequestFailure = RequestFailure(detail: Option<string>, message: Option<string>)

  /** How an asynchronous thunk settles: fulfilled with a payload, or rejected. */
  datatype Outcome<+T> = Fulfilled(payload: T) | Rejected(failure: RequestFailure)
}
