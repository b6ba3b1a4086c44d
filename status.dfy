/**
  The response envelope `{status, msg, result}` and the classmethods
  `_check_status` and `_process_response` of the OpenLoad client.
*/
module Status {
  import opened Wrappers
  import opened ApiExceptions

  /** A decoded JSON response; `result` is opaque to the client. */
  datatype Envelope<P> = Envelope(status: int, msg: string, result: P)

  /** What `_check_status` does: return normally, or raise one error kind. */
  datatype Outcome = Pass | Raise(error: ErrorKind)

  /** The status codes with an exception class of their own. */
  const DedicatedCodes: set<int> := {400, 403, 404, 429, 451, 509}

  /** The status code that raises a given kind, for the kinds tied to one code. */
  function DedicatedStatus(k: ErrorKind): Option<int> {
    match k
    case BadRequest(_) => Some(400)
    case PermissionDenied(_) => Some(403)
    case FileNotFound(_) => Some(404)
    case TooManyRequests(_) => Some(429)
    case UnavailableForLegalReasons(_) => Some(451)
    case BandwidthUsageExceeded(_) => Some(509)
    case ServerError(_) => None
    case NotImplemented => None
  }

  /** `_check_status`: the if/elif chain from `status` to an exception. */
  function CheckStatus<P>(response: Envelope<P>): (o: Outcome)
    ensures o.Raise? <==> response.status in DedicatedCodes || response.status >= 500
    ensures o.Raise? ==> o.error.FromServer() && o.error.msg == response.msg
    ensures o.Raise? && DedicatedStatus(o.error).Some? ==> DedicatedStatus(o.error).value == response.status
    ensures o.Raise? && DedicatedStatus(o.error).None? ==>
              o.error.ServerError? && response.status >= 500 && response.status != 509
  {
    var status, msg := response.status, response.msg;
    if status == 400 then Raise(BadRequest(msg))
    else if status == 403 then Raise(PermissionDenied(msg))
    else if status == 404 then Raise(FileNotFound(msg))
    else if status == 429 then Raise(TooManyRequests(msg))
    else if status == 451 then Raise(UnavailableForLegalReasons(msg))
    else if status == 509 then Raise(BandwidthUsageExceeded(msg))
    else if status >= 500 then Raise(ServerError(msg))
    else Pass
  }

  /** `_process_response`: check the status, then return `result` unchanged. */
  function ProcessResponse<P>(response: Envelope<P>): (r: Result<P, ErrorKind>)
    ensures r.Success? <==> CheckStatus(response) == Pass
    ensures r.Success? ==> r.value == response.result
    ensures r.Failure? ==> r.error == CheckStatus(response).error
  {
    match CheckStatus(response)
    case Pass => Success(response.result)
    case Raise(e) => Failure(e)
  }

  /** Each dedicated kind is raised by its own code, with its message verbatim. */
  lemma DedicatedStatusRaises<P>(k: ErrorKind, result: P)
    requires DedicatedStatus(k).Some?
    ensures CheckStatus(Envelope(DedicatedStatus(k).value, k.msg, result)) == Raise(k)
  {
  }

  /** Every code of 500 or more other than 509 raises ServerError, carrying msg. */
  lemma ServerErrorRange<P>(response: Envelope<P>)
    requires response.status >= 500 && response.status != 509
    ensures CheckStatus(response) == Raise(ServerError(response.msg))
  {
  }

  /** 509 is tested before the catch-all, so it never raises ServerError. */
  lemma BandwidthBeforeServerError<P>(response: Envelope<P>)
    requires response.status == 509
    ensures !CheckStatus(response).error.ServerError?
  {
  }

  /** Any other code (200, 401, 402, ...) passes, and the result comes back unchanged. */
  lemma UnmatchedStatusSucceeds<P>(response: Envelope<P>)
    requires response.status !in DedicatedCodes && response.status < 500
    ensures ProcessResponse(response) == Success(response.result)
  {
  }
}
