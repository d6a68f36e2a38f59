/**
 * Every way a request or a sync can fail. The Monday kinds are the exception classes of
 * tap_monday/exceptions.py; the others stand for the Python built-in exceptions the engine
 * lets propagate (transport errors of the HTTP library, ValueError, KeyError, TypeError,
 * IndexError, a body that is not JSON).
 */
module Failures {
  import opened Wrappers

  /** The exception classes raised for HTTP statuses. */
  datatype HttpKind =
    | MondayError
    | BadRequest
    | Unauthorized
    | Forbidden
    | NotFound
    | Conflict
    | UnprocessableEntity
    | RateLimit
    | InternalServer
    | NotImplemented
    | BadGateway
    | ServiceUnavailable

  /** Transport-level failures of the HTTP session. */
  datatype TransportKind =
    | ConnectionReset   // the built-in ConnectionResetError
    | ConnectionFailed  // requests.exceptions.ConnectionError
    | ChunkedEncoding   // requests.exceptions.ChunkedEncodingError
    | Timeout           // requests.exceptions.Timeout
    | OtherTransport    // any other error raised by the session

  datatype Error =
    | Monday(kind: HttpKind, message: string, retryAfter: Option<int>)
    | Transport(transport: TransportKind)
    | ValueError(reason: string)
    | KeyError(key: string)
    | TypeError(reason: string)
    | IndexError
    | JsonDecodeError
    | Unmodelled(what: string)   // Python behaviour the model does not follow (see README)
    | Exhausted                  // the scripted server has no answer left
}
