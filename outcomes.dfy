/** Values shared by the three data contexts: optional values, the ways an
    awaited HTTP request can end, and JavaScript truthiness of an optional
    string. The network itself is not modelled: every operation receives the
    outcome of its request as a parameter. */
module Outcomes {

  datatype Option<T> = None | Some(value: T) {
    function GetOr(default: T): T {
      match this
      case Some(v) => v
      case None => default
    }
  }

  /** Why an awaited request was rejected, in the three shapes the contexts
      tell apart: a response with a non-2xx status (`err.response`, carrying
      `err.response.data.message`), a request that got no response
      (`err.request`), and anything else (`err.message`). */
  datatype Failure =
    | ServerReply(serverMessage: Option<string>)
    | NoReply
    | Other(errorMessage: Option<string>)

  /** The outcome of one request: resolved with the response data, or rejected. */
  datatype Outcome<T> = Success(data: T) | Failed(failure: Failure)

  /** What an async operation hands back to its caller: the promise resolves
      with a value, or rejects because the operation rethrew a failure. */
  datatype Settled<T> = Resolved(value: T) | Rejected(reason: Failure)

  /** A possibly missing string in a JavaScript condition: `undefined`, `null`
      and the empty string are falsy. */
  predicate Truthy(s: Option<string>) {
    s.Some? && s.value != ""
  }

  /** `s || fallback` for a possibly missing string. */
  function OrElse(s: Option<string>, fallback: string): string {
    if Truthy(s) then s.value else fallback
  }

  /** `error.response?.data?.message`: only a server reply carries one. */
  function ServerMessage(f: Failure): Option<string> {
    match f
    case ServerReply(m) => m
    case _ => None
  }
}
