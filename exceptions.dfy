/**
 * The status-to-exception table, the exception hierarchy and the rate-limit exception's
 * constructor (tap_monday/exceptions.py).
 */
module Exceptions {
  import opened Wrappers
  import opened Failures
  import opened Json
  import Text

  /** The statuses the table covers. */
  const MappedStatuses: set<int> := {400, 401, 403, 404, 409, 422, 429, 500, 501, 502, 503}

  /** The statuses whose exception class derives from MondayBackoffError. */
  const BackoffStatuses: set<int> := {422, 429, 500, 501, 502, 503}

  /** One row of the table: the exception class to raise and its default message. */
  datatype Entry = Entry(kind: HttpKind, message: string)

  /** The exception classes that derive from MondayBackoffError. */
  predicate IsBackoff(k: HttpKind) {
    k in {UnprocessableEntity, RateLimit, InternalServer, NotImplemented, BadGateway, ServiceUnavailable}
  }

  /** The status an exception class is registered under, if any. */
  function StatusOf(k: HttpKind): Option<int> {
    match k
    case MondayError => None
    case BadRequest => Some(400)
    case Unauthorized => Some(401)
    case Forbidden => Some(403)
    case NotFound => Some(404)
    case Conflict => Some(409)
    case UnprocessableEntity => Some(422)
    case RateLimit => Some(429)
    case InternalServer => Some(500)
    case NotImplemented => Some(501)
    case BadGateway => Some(502)
    case ServiceUnavailable => Some(503)
  }

  /** The class column of `ERROR_CODE_EXCEPTION_MAPPING`. */
  function KindOf(status: int): (r: Option<HttpKind>)
    ensures r.Some? <==> status in MappedStatuses
    ensures r.Some? ==> r.value != MondayError && StatusOf(r.value) == Some(status)
    ensures r.Some? ==> (IsBackoff(r.value) <==> status in BackoffStatuses)
  {
    if status == 400 then Some(BadRequest)
    else if status == 401 then Some(Unauthorized)
    else if status == 403 then Some(Forbidden)
    else if status == 404 then Some(NotFound)
    else if status == 409 then Some(Conflict)
    else if status == 422 then Some(UnprocessableEntity)
    else if status == 429 then Some(RateLimit)
    else if status == 500 then Some(InternalServer)
    else if status == 501 then Some(NotImplemented)
    else if status == 502 then Some(BadGateway)
    else if status == 503 then Some(ServiceUnavailable)
    else None
  }

  /** The message column of `ERROR_CODE_EXCEPTION_MAPPING`. */
  function MessageOf(status: int): (r: Option<string>)
    ensures r.Some? <==> status in MappedStatuses
  {
    match status
    case 400 => Some("A validation exception has occurred.")
    case 401 => Some("The access token provided is expired, revoked, malformed or invalid for other reasons.")
    case 403 => Some("You are missing the following required scopes: read")
    case 404 => Some("The resource you have specified cannot be found.")
    case 409 => Some("The API request cannot be completed because the requested operation would conflict with an existing item.")
    case 422 => Some("The request content itself is not processable by the server.")
    case 429 => Some("The API rate limit for your organisation/application pairing has been exceeded.")
    case 500 => Some("The server encountered an unexpected condition which prevented it from fulfilling the request.")
    case 501 => Some("The server does not support the functionality required to fulfill the request.")
    case 502 => Some("Server received an invalid response.")
    case 503 => Some("API service is currently unavailable.")
    case _ => None
  }

  /** `ERROR_CODE_EXCEPTION_MAPPING.get(status)`: both columns of one row. */
  function Mapping(status: int): (r: Option<Entry>)
    ensures r.Some? <==> status in MappedStatuses
    ensures r.Some? ==> r.value.kind == KindOf(status).value && r.value.message == MessageOf(status).value
  {
    if status in MappedStatuses then Some(Entry(KindOf(status).value, MessageOf(status).value)) else None
  }

  /** Every class but the base MondayError is registered, under exactly one status. */
  lemma MappingCoversKinds(k: HttpKind)
    ensures k != MondayError <==> StatusOf(k).Some?
    ensures StatusOf(k).Some? ==> KindOf(StatusOf(k).value) == Some(k)
  {
  }

  /** Distinct statuses raise distinct classes. */
  lemma MappingInjective(a: int, b: int)
    requires KindOf(a).Some? && KindOf(b).Some? && a != b
    ensures KindOf(a).value != KindOf(b).value
  {
  }

  /** The class a status raises: the table's, or MondayError for a status it does not cover. */
  function KindFor(status: int): (k: HttpKind)
    ensures status in MappedStatuses ==> k == KindOf(status).value
    ensures status !in MappedStatuses ==> k == MondayError
  {
    var e := KindOf(status);
    if e.Some? then e.value else MondayError
  }

  /**
   * `retry_after` as MondayRateLimitError's constructor computes it from the response
   * (None when there is no response object; `Some(None)` is a body that is not JSON, on
   * which `response.json()` raises).
   */
  function RetryAfter(response: Option<Option<Json>>): (r: Result<Option<int>, Error>)
    ensures response.None? ==> r == Ok(None)
    ensures response == Some(None) ==> r == Err(JsonDecodeError)
    ensures response.Some? && response.value.Some? && response.value.value.JObj? ==>
      var fields := response.value.value.fields;
      ("errors" !in fields || !Truthy(fields["errors"])) ==> r == Ok(None)
    ensures r.Ok? && r.value.Some? ==>
      response.Some? && response.value.Some? && response.value.value.JObj?
      && "errors" in response.value.value.fields && Truthy(response.value.value.fields["errors"])
  {
    if response.None? then Ok(None)
    else if response.value.None? then Err(JsonDecodeError)
    else
      var body := response.value.value;
      var errors :- Get(body, "errors", JArr([]));
      if !Truthy(errors) then Ok(None)
      else
        var e0 :- First(errors);
        var ext :- Get(e0, "extensions", JObj(map[]));
        var seconds :- Get(ext, "retry_in_seconds", JNull);
        if seconds == JNull then Ok(None)
        else
          var n :- ToInt(seconds);
          Ok(Some(n))
  }

  /** The message MondayRateLimitError carries. */
  function RateLimitMessage(message: Option<string>, retryAfter: Option<int>): (r: string)
    ensures message.Some? && message.value != "" ==> message.value + " " <= r
    ensures message.None? || message.value == "" ==> "Rate limit or complexity budget exhausted " <= r
    ensures retryAfter.None? ==> Text.EndsWith(r, "(Retry after unknown delay.)")
    ensures retryAfter.Some? ==>
      Text.EndsWith(r, "(Retry after " + Text.IntToString(retryAfter.value) + " seconds.)")
  {
    var base := if message.Some? && message.value != "" then message.value
                else "Rate limit or complexity budget exhausted";
    var info := if retryAfter.Some? then "(Retry after " + Text.IntToString(retryAfter.value) + " seconds.)"
                else "(Retry after unknown delay.)";
    base + " " + info
  }

  /** `MondayRateLimitError(message, response)`: the exception, or what its constructor raises. */
  function RateLimitError(message: Option<string>, response: Option<Option<Json>>): (r: Result<Error, Error>)
    ensures r.Ok? <==> RetryAfter(response).Ok?
    ensures r.Ok? ==> r.value == Monday(RateLimit, RateLimitMessage(message, RetryAfter(response).value),
                                         RetryAfter(response).value)
  {
    var after :- RetryAfter(response);
    Ok(Monday(RateLimit, RateLimitMessage(message, after), after))
  }

  /** A rate-limit body of the documented shape yields its retry delay. */
  lemma RetryAfterFromErrors(n: int, rest: seq<Json>, e0: map<string, Json>, ext: map<string, Json>,
                             body: map<string, Json>)
    requires "retry_in_seconds" in ext && ext["retry_in_seconds"] == JInt(n)
    requires "extensions" in e0 && e0["extensions"] == JObj(ext)
    requires "errors" in body && body["errors"] == JArr([JObj(e0)] + rest)
    ensures RetryAfter(Some(Some(JObj(body)))) == Ok(Some(n))
  {
    var errors := JArr([JObj(e0)] + rest);
    assert Get(JObj(body), "errors", JArr([])) == Ok(errors);
    assert Truthy(errors) by {
      assert |errors.items| > 0;
    }
    assert First(errors) == Ok(JObj(e0));
    assert Get(JObj(e0), "extensions", JObj(map[])) == Ok(JObj(ext));
    assert Get(JObj(ext), "retry_in_seconds", JNull) == Ok(JInt(n));
  }

  /**
   * The truthy-`errors` branch in full: the delay is read from the first error's extensions
   * (`{}` when absent); a missing or null `retry_in_seconds` gives no delay, any other value
   * is passed to `int()`.
   */
  lemma RetryAfterFirstError(rest: seq<Json>, e0: map<string, Json>, body: map<string, Json>)
    requires "errors" in body && body["errors"] == JArr([JObj(e0)] + rest)
    requires "extensions" in e0 ==> e0["extensions"].JObj?
    ensures var ext := if "extensions" in e0 then e0["extensions"].fields else map[];
      var seconds := if "retry_in_seconds" in ext then ext["retry_in_seconds"] else JNull;
      RetryAfter(Some(Some(JObj(body))))
      == if seconds == JNull then Ok(None)
         else if ToInt(seconds).Ok? then Ok(Some(ToInt(seconds).value))
         else Err(ToInt(seconds).error)
  {
    var errors := JArr([JObj(e0)] + rest);
    assert Get(JObj(body), "errors", JArr([])) == Ok(errors);
    assert Truthy(errors) by {
      assert |errors.items| > 0;
    }
    assert First(errors) == Ok(JObj(e0));
  }

  /** A first error without `extensions.retry_in_seconds`, or with it null, leaves the delay unknown. */
  lemma RetryAfterMissing(rest: seq<Json>, e0: map<string, Json>, body: map<string, Json>)
    requires "errors" in body && body["errors"] == JArr([JObj(e0)] + rest)
    requires "extensions" in e0 ==> e0["extensions"].JObj?
    requires "extensions" in e0 && "retry_in_seconds" in e0["extensions"].fields ==>
      e0["extensions"].fields["retry_in_seconds"] == JNull
    ensures RetryAfter(Some(Some(JObj(body)))) == Ok(None)
  {
    RetryAfterFirstError(rest, e0, body);
  }

  /** A str `retry_in_seconds` is parsed by `int()`: text such as "30" gives the delay 30. */
  lemma RetryAfterFromText(s: string, n: int, rest: seq<Json>, e0: map<string, Json>, ext: map<string, Json>,
                           body: map<string, Json>)
    requires Text.ParseInt(s) == Some(n)
    requires "retry_in_seconds" in ext && ext["retry_in_seconds"] == JStr(s)
    requires "extensions" in e0 && e0["extensions"] == JObj(ext)
    requires "errors" in body && body["errors"] == JArr([JObj(e0)] + rest)
    ensures RetryAfter(Some(Some(JObj(body)))) == Ok(Some(n))
  {
    RetryAfterFirstError(rest, e0, body);
  }

  /** Without a message from the API, the error names the delay it was given. */
  lemma RateLimitMessageNamesDelay(n: int)
    ensures RateLimitMessage(None, Some(n))
            == "Rate limit or complexity budget exhausted (Retry after " + Text.IntToString(n) + " seconds.)"
  {
    var digits := Text.IntToString(n);
    var base := "Rate limit or complexity budget exhausted";
    calc {
      RateLimitMessage(None, Some(n));
      base + " " + ("(Retry after " + digits + " seconds.)");
      (base + " " + "(Retry after ") + digits + " seconds.)";
      { assert base + " " + "(Retry after " == "Rate limit or complexity budget exhausted (Retry after "; }
      "Rate limit or complexity budget exhausted (Retry after " + digits + " seconds.)";
    }
  }
}
