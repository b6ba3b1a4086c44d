/**
  The exception classes of openload/api_exceptions.py, each carrying the
  server's `msg`, plus Python's NotImplementedError (raised by
  failed_conversions) as one more kind with no message.
*/
module ApiExceptions {
  datatype ErrorKind =
    | BadRequest(msg: string)
    | PermissionDenied(msg: string)
    | FileNotFound(msg: string)
    | TooManyRequests(msg: string)
    | UnavailableForLegalReasons(msg: string)
    | BandwidthUsageExceeded(msg: string)
    | ServerError(msg: string)
    | NotImplemented
  {
    /** True for the kinds raised from a response envelope (all but NotImplemented). */
    predicate FromServer() {
      !NotImplemented?
    }
  }
}
