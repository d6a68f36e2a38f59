/**
 * The API client (tap_monday/client.py): error classification of a response, the headers and
 * argument defaulting of `make_request`, and the retry policy of the backoff decorator around
 * `__make_request`. The HTTP session is a script of replies, one consumed per attempt.
 */
module Client {
  import opened Wrappers
  import opened Failures
  import opened Json
  import opened Exceptions
  import Text

  type Params = map<string, string>
  type Headers = map<string, string>
  /** A request body; the tap's bodies are dicts of strings such as `{"query": ...}`. */
  type Payload = map<string, string>

  datatype Config = Config(apiToken: string, startDate: string)

  /** What the server does with one HTTP attempt: answer (body None: not JSON) or fail in transport. */
  datatype Reply = Answer(status: int, body: Option<Json>) | Broken(transport: TransportKind)

  /** One request as handed to the HTTP session. */
  datatype Call = Call(httpMethod: string, endpoint: string, headers: Headers, params: Params, data: Option<Payload>)

  const OkStatuses: set<int> := {200, 201, 204}
  const BaseUrl: string := "https://api.monday.com/v2"
  const ApiVersion: string := "2025-07"
  /** `max_tries` of the backoff decorator: attempts in total, the first included. */
  const MaxTries: nat := 5

  // ---------------------------------------------------------------- raise_for_error

  /** The message raise_for_error builds from the status and the parsed body. */
  function ErrorMessage(status: int, body: Json): (r: Result<string, Error>)
    ensures r.Ok? ==> body.JObj?
  {
    var errors :- Get(body, "errors", JNull);
    if Truthy(errors) then
      // errors is truthy, so its first element is what the message reports
      var first :- First(errors);
      var message :- Get(first, "message", JNull);
      var extensions :- Get(first, "extensions", JObj(map[]));
      var code :- Get(extensions, "code", JNull);
      Ok("HTTP-error-code: " + Text.IntToString(status) + ", Error: " + PyStr(message)
         + ", Error Extensions: " + PyStr(code))
    else
      var fallback := MessageOf(status).GetOr("Unknown Error");
      var message :- Get(body, "message", JStr(fallback));
      Ok("HTTP-error-code: " + Text.IntToString(status) + ", Error: " + PyStr(message))
  }

  /** Without a truthy "errors", the message reports the body's own "message", else the table's default. */
  lemma ErrorMessagePlain(status: int, fields: map<string, Json>)
    requires "errors" !in fields || !Truthy(fields["errors"])
    ensures ErrorMessage(status, JObj(fields))
      == Ok("HTTP-error-code: " + Text.IntToString(status) + ", Error: "
            + PyStr(if "message" in fields then fields["message"] else JStr(MessageOf(status).GetOr("Unknown Error"))))
  {
    assert Get(JObj(fields), "errors", JNull) == Ok(if "errors" in fields then fields["errors"] else JNull);
  }

  /** With a non-empty list of errors, the message reports the first one's message and extension code. */
  lemma ErrorMessageFirst(status: int, fields: map<string, Json>, first: map<string, Json>, rest: seq<Json>)
    requires "errors" in fields && fields["errors"] == JArr([JObj(first)] + rest)
    requires "extensions" in first ==> first["extensions"].JObj?
    ensures var extensions := if "extensions" in first then first["extensions"].fields else map[];
      ErrorMessage(status, JObj(fields))
      == Ok("HTTP-error-code: " + Text.IntToString(status)
            + ", Error: " + PyStr(if "message" in first then first["message"] else JNull)
            + ", Error Extensions: " + PyStr(if "code" in extensions then extensions["code"] else JNull))
  {
    var errors := fields["errors"];
    assert Truthy(errors) by {
      assert |errors.items| > 0;
    }
    assert First(errors) == Ok(JObj(first));
  }

  /** The exception `raise exc(message, response)` produces, or the one its constructor raises. */
  function Raised(status: int, message: string, body: Option<Json>): (e: Error)
    ensures KindFor(status) != RateLimit ==> e == Monday(KindFor(status), message, None)
    // 429: the message gains the retry clause and the exception carries the delay
    ensures KindFor(status) == RateLimit && RetryAfter(Some(body)).Ok? ==>
      var after := RetryAfter(Some(body)).value;
      e == Monday(RateLimit, RateLimitMessage(Some(message), after), after)
    // 429 with a body whose delay cannot be read: the constructor's own exception
    ensures KindFor(status) == RateLimit && RetryAfter(Some(body)).Err? ==> e == RetryAfter(Some(body)).error
  {
    var kind := KindFor(status);
    if kind == RateLimit then
      match RateLimitError(Some(message), Some(body))
      case Ok(err) => err
      case Err(err) => err
    else Monday(kind, message, None)
  }

  /**
   * `raise_for_error(response)`: None when nothing is raised. A body that is not JSON counts
   * as `{}`; the `"errors" in body` test only runs for a successful status.
   */
  function RaiseForError(status: int, body: Option<Json>): (r: Option<Error>)
    ensures r.None? <==> status in OkStatuses && Contains(body.GetOr(JObj(map[])), "errors") == Ok(false)
    // whenever the status or an "errors" key raises, the exception is the one built from the message
    ensures (status !in OkStatuses || Contains(body.GetOr(JObj(map[])), "errors") == Ok(true))
            && ErrorMessage(status, body.GetOr(JObj(map[]))).Ok? ==>
      r == Some(Raised(status, ErrorMessage(status, body.GetOr(JObj(map[]))).value, body))
    ensures (status !in OkStatuses || Contains(body.GetOr(JObj(map[])), "errors") == Ok(true))
            && ErrorMessage(status, body.GetOr(JObj(map[]))).Err? ==>
      r == Some(ErrorMessage(status, body.GetOr(JObj(map[]))).error)
  {
    var parsed := body.GetOr(JObj(map[]));
    var raise :=
      if status !in OkStatuses then Ok(true)
      else Contains(parsed, "errors");
    if raise.Err? then Some(raise.error)
    else if !raise.value then None
    else
      match ErrorMessage(status, parsed)
      case Err(e) => Some(e)
      case Ok(message) => Some(Raised(status, message, body))
  }

  /** A body `{"errors": [{"message": m, "extensions": {"code": c}}]}` is reported with both. */
  lemma RaiseWithErrors(status: int, m: string, c: string)
    requires status !in OkStatuses && KindFor(status) != RateLimit
    ensures var body := JObj(map["errors" := JArr([JObj(map["message" := JStr(m),
                                   "extensions" := JObj(map["code" := JStr(c)])])])]);
      RaiseForError(status, Some(body))
      == Some(Monday(KindFor(status), "HTTP-error-code: " + Text.IntToString(status) + ", Error: " + m
                     + ", Error Extensions: " + c, None))
  {
  }

  /**
   * Even with a successful status, a body carrying GraphQL errors raises: MondayError (no
   * successful status is in the table) with the first error's message and code.
   */
  lemma ErrorsKeyRaises(status: int, fields: map<string, Json>, m: string, c: string, rest: seq<Json>)
    requires status in OkStatuses
    requires "errors" in fields
    requires fields["errors"] == JArr([JObj(map["message" := JStr(m), "extensions" := JObj(map["code" := JStr(c)])])] + rest)
    ensures RaiseForError(status, Some(JObj(fields)))
      == Some(Monday(MondayError, "HTTP-error-code: " + Text.IntToString(status) + ", Error: " + m
                     + ", Error Extensions: " + c, None))
  {
    assert KindFor(status) == MondayError;
    var first := map["message" := JStr(m), "extensions" := JObj(map["code" := JStr(c)])];
    assert fields["errors"].items[0] == JObj(first);
  }

  /**
   * A failing status whose body has no truthy "errors" reports the body's "message", or the
   * table's default message for the status when the body has none.
   */
  lemma MessageOrDefault(status: int, fields: map<string, Json>)
    requires status !in OkStatuses && KindFor(status) != RateLimit
    requires "errors" !in fields
    ensures RaiseForError(status, Some(JObj(fields)))
      == Some(Monday(KindFor(status), "HTTP-error-code: " + Text.IntToString(status) + ", Error: "
                     + (if "message" in fields then PyStr(fields["message"]) else MessageOf(status).GetOr("Unknown Error")), None))
  {
  }

  lemma RateLimitSuffix(message: string, n: int)
    requires message != ""
    ensures RateLimitMessage(Some(message), Some(n)) == message + " (Retry after " + Text.IntToString(n) + " seconds.)"
  {
    var d := Text.IntToString(n);
    assert message + " " + ("(Retry after " + d + " seconds.)") == message + " (Retry after " + d + " seconds.)";
  }

  /**
   * A 429 whose body names the delay raises MondayRateLimitError: the built message followed by
   * the retry clause, and the delay itself for the backoff handler.
   */
  lemma RateLimitRaised(m: string, c: string, n: int)
    ensures var ext := JObj(map["code" := JStr(c), "retry_in_seconds" := JInt(n)]);
      var body := JObj(map["errors" := JArr([JObj(map["message" := JStr(m), "extensions" := ext])])]);
      RaiseForError(429, Some(body))
      == Some(Monday(RateLimit, "HTTP-error-code: " + Text.IntToString(429) + ", Error: " + m
                     + ", Error Extensions: " + c + " (Retry after " + Text.IntToString(n) + " seconds.)", Some(n)))
  {
    var ext := map["code" := JStr(c), "retry_in_seconds" := JInt(n)];
    var first := map["message" := JStr(m), "extensions" := JObj(ext)];
    var body := map["errors" := JArr([JObj(first)])];
    assert KindFor(429) == RateLimit;
    RetryAfterFromErrors(n, [], first, ext, body);
    var message := "HTTP-error-code: " + Text.IntToString(429) + ", Error: " + m + ", Error Extensions: " + c;
    ErrorMessageFirst(429, body, first, []);
    assert ErrorMessage(429, JObj(body)) == Ok(message);
    assert Contains(JObj(body), "errors") == Ok(true);
    assert RaiseForError(429, Some(JObj(body))) == Some(Raised(429, message, Some(JObj(body))));
    RateLimitSuffix(message, n);
  }

  /** A status outside the table raises the base MondayError with the table-less default. */
  lemma UnmappedStatus(status: int)
    requires status !in OkStatuses && status !in MappedStatuses
    ensures RaiseForError(status, None)
            == Some(Monday(MondayError, "HTTP-error-code: " + Text.IntToString(status) + ", Error: " + "Unknown Error", None))
  {
    assert MessageOf(status).None?;
    assert Get(JObj(map[]), "errors", JNull) == Ok(JNull);
    assert Get(JObj(map[]), "message", JStr("Unknown Error")) == Ok(JStr("Unknown Error"));
    var body := JObj(map[]);
    assert !Truthy(JNull);
    assert MessageOf(status).GetOr("Unknown Error") == "Unknown Error";
  }

  // ---------------------------------------------------------------- headers and defaults

  /** The `headers` property. */
  function DefaultHeaders(): Headers {
    map["Content-Type" := "application/json", "API-Version" := ApiVersion]
  }

  /** `authenticate`: default headers plus the token, then the caller's headers on top. */
  function Authenticate(config: Config, headers: Option<Headers>, params: Option<Params>): (r: (Headers, Option<Params>))
    ensures r.1 == params
    ensures r.0.Keys == DefaultHeaders().Keys + {"Authorization"} + headers.GetOr(map[]).Keys
    ensures forall k :: k in headers.GetOr(map[]) ==> r.0[k] == headers.value[k]
    ensures "Authorization" !in headers.GetOr(map[]) ==> r.0["Authorization"] == config.apiToken
    ensures forall k :: k in DefaultHeaders() && k !in headers.GetOr(map[]) ==> r.0[k] == DefaultHeaders()[k]
  {
    var base := DefaultHeaders()["Authorization" := config.apiToken];
    (if headers.Some? then base + headers.value else base, params)
  }

  /** `endpoint or f"{base_url}/{path}"`; a missing path prints as "None". */
  function RequestEndpoint(endpoint: string, path: Option<string>): (r: string)
    ensures endpoint != "" ==> r == endpoint
    ensures endpoint == "" ==> r == BaseUrl + "/" + (if path.Some? then path.value else "None")
  {
    if endpoint != "" then endpoint else BaseUrl + "/" + (if path.Some? then path.value else "None")
  }

  // ---------------------------------------------------------------- one attempt and the retry policy

  /** The exception classes listed in the backoff decorator. */
  predicate Retryable(e: Error) {
    || (e.Transport? && e.transport != OtherTransport)
    || (e.Monday? && e.kind in {RateLimit, InternalServer, ServiceUnavailable})
  }

  /** Three backoff-derived classes are not in the decorator's list and fail at once. */
  lemma BackoffKindsNotRetried(m: string)
    ensures forall k :: k in {UnprocessableEntity, NotImplemented, BadGateway} ==>
      IsBackoff(k) && !Retryable(Monday(k, m, None))
  {
  }

  /** The result of one session call that reached the server. */
  function Classify(reply: Reply): (r: Result<Json, Error>)
    ensures r.Ok? ==> reply.Answer? && reply.status in OkStatuses && reply.body == Some(r.value)
    ensures reply.Broken? ==> r == Err(Transport(reply.transport))
  {
    match reply
    case Broken(t) => Err(Transport(t))
    case Answer(status, body) =>
      var raised := RaiseForError(status, body);
      if raised.Some? then Err(raised.value)
      else if body.None? then Err(JsonDecodeError)
      else Ok(body.value)
  }

  predicate KnownMethod(httpMethod: string) {
    Text.Upper(httpMethod) == "GET" || Text.Upper(httpMethod) == "POST"
  }

  /** What each reply of the script gives when a call receives it. */
  function Outcomes(script: seq<Reply>): (outs: seq<Result<Json, Error>>)
    ensures |outs| == |script|
    ensures forall j {:trigger Classify(script[j])} :: 0 <= j < |script| ==> outs[j] == Classify(script[j])
    decreases |script|
  {
    if script == [] then []
    else
      var init := script[..|script| - 1];
      assert forall j :: 0 <= j < |init| ==> Classify(init[j]) == Classify(script[j]);
      Outcomes(init) + [Classify(script[|script| - 1])]
  }

  datatype Outcome = Outcome(result: Result<Json, Error>, calls: nat)

  /**
   * What the decorated `__make_request` yields when its `attempt`-th try receives the outcome
   * at index `next` of `outs`, and how many session calls it makes in total.
   */
  function Attempts(httpMethod: string, outs: seq<Result<Json, Error>>, next: nat, attempt: nat): (o: Outcome)
    requires 1 <= attempt <= MaxTries
    decreases MaxTries - attempt
  {
    if !KnownMethod(httpMethod) then Outcome(Err(ValueError("Unsupported method")), 0)
    else if next >= |outs| then Outcome(Err(Exhausted), 0)
    else
      var out := outs[next];
      if out.Ok? || !Retryable(out.error) || attempt == MaxTries then Outcome(out, 1)
      else
        var rest := Attempts(httpMethod, outs, next + 1, attempt + 1);
        Outcome(rest.result, rest.calls + 1)
  }

  /** At most `max_tries` session calls, counting from the attempt reached. */
  lemma {:induction false} AttemptsBounded(httpMethod: string, outs: seq<Result<Json, Error>>, next: nat, attempt: nat)
    requires 1 <= attempt <= MaxTries
    ensures Attempts(httpMethod, outs, next, attempt).calls <= MaxTries - attempt + 1
    ensures Attempts(httpMethod, outs, next, attempt).calls <= |outs| - next || next >= |outs|
    decreases MaxTries - attempt
  {
    if KnownMethod(httpMethod) && next < |outs| {
      var out := outs[next];
      if !(out.Ok? || !Retryable(out.error) || attempt == MaxTries) {
        AttemptsBounded(httpMethod, outs, next + 1, attempt + 1);
      }
    }
  }

  /**
   * The calls stay within the script, and a success costs at least one call, so a loop of
   * requests on one script always ends.
   */
  lemma {:induction false} AttemptsProgress(httpMethod: string, outs: seq<Result<Json, Error>>, next: nat, attempt: nat)
    requires 1 <= attempt <= MaxTries && next <= |outs|
    ensures var o := Attempts(httpMethod, outs, next, attempt);
      next + o.calls <= |outs| && (o.result.Ok? ==> o.calls >= 1)
    decreases MaxTries - attempt
  {
    if KnownMethod(httpMethod) && next < |outs| {
      var out := outs[next];
      if !(out.Ok? || !Retryable(out.error) || attempt == MaxTries) {
        AttemptsProgress(httpMethod, outs, next + 1, attempt + 1);
      }
    }
  }

  /** An error outside the decorator's list fails after exactly one call. */
  lemma NotRetried(httpMethod: string, outs: seq<Result<Json, Error>>, next: nat)
    requires KnownMethod(httpMethod) && next < |outs|
    requires outs[next].Err? && !Retryable(outs[next].error)
    ensures Attempts(httpMethod, outs, next, 1) == Outcome(outs[next], 1)
  {
  }

  /** The outcome at index j exists and is an error the decorator retries. */
  predicate FailsRetryably(outs: seq<Result<Json, Error>>, j: nat) {
    j < |outs| && outs[j].Err? && Retryable(outs[j].error)
  }

  /**
   * When the first k-1 outcomes are retryable failures and the k-th succeeds (k at most
   * `max_tries - attempt + 1`), the request succeeds with exactly k calls.
   */
  lemma {:induction false} SucceedsAt(httpMethod: string, outs: seq<Result<Json, Error>>, next: nat, attempt: nat, k: nat)
    requires KnownMethod(httpMethod)
    requires 1 <= attempt <= MaxTries && 1 <= k <= MaxTries - attempt + 1 && next + k <= |outs|
    requires forall j :: next <= j < next + k - 1 ==> FailsRetryably(outs, j)
    requires outs[next + k - 1].Ok?
    ensures Attempts(httpMethod, outs, next, attempt) == Outcome(outs[next + k - 1], k)
    decreases k
  {
    if k > 1 {
      assert FailsRetryably(outs, next);
      SucceedsAt(httpMethod, outs, next + 1, attempt + 1, k - 1);
    }
  }

  /** A retryable failure before the last attempt moves on to the next outcome, one call spent. */
  lemma RetryStep(httpMethod: string, outs: seq<Result<Json, Error>>, next: nat, attempt: nat)
    requires KnownMethod(httpMethod) && 1 <= attempt < MaxTries && FailsRetryably(outs, next)
    ensures var rest := Attempts(httpMethod, outs, next + 1, attempt + 1);
      Attempts(httpMethod, outs, next, attempt) == Outcome(rest.result, rest.calls + 1)
  {
  }

  /** Retryable failures up to the last allowed attempt: the last one is raised. */
  lemma {:induction false} GivesUpAfterMaxTries(httpMethod: string, outs: seq<Result<Json, Error>>, next: nat, attempt: nat)
    requires KnownMethod(httpMethod)
    requires 1 <= attempt <= MaxTries && next + MaxTries - attempt < |outs|
    requires forall j :: next <= j <= next + MaxTries - attempt ==> FailsRetryably(outs, j)
    ensures Attempts(httpMethod, outs, next, attempt)
            == Outcome(outs[next + MaxTries - attempt], MaxTries - attempt + 1)
    decreases MaxTries - attempt
  {
    assert FailsRetryably(outs, next);
    if attempt < MaxTries {
      RetryStep(httpMethod, outs, next, attempt);
      GivesUpAfterMaxTries(httpMethod, outs, next + 1, attempt + 1);
    }
  }

  /** The session and the configuration of one run. */
  class Client {
    const config: Config
    /** The server's replies, in the order the session calls receive them. */
    const script: seq<Reply>
    /** Every call handed to the session so far. */
    var calls: seq<Call>

    constructor (config: Config, script: seq<Reply>)
      ensures this.config == config && this.script == script && calls == []
    {
      this.config := config;
      this.script := script;
      calls := [];
    }

    /**
     * The undecorated `__make_request`: upper-case and check the method, drop the body of a GET,
     * make one session call and raise for errors. A script with no reply left fails without a call.
     */
    method RequestOnce(httpMethod: string, endpoint: string, headers: Headers, params: Params, data: Option<Payload>)
      returns (out: Result<Json, Error>)
      modifies this`calls
      ensures !KnownMethod(httpMethod) ==> out == Err(ValueError("Unsupported method")) && calls == old(calls)
      ensures KnownMethod(httpMethod) && |old(calls)| >= |script| ==> out == Err(Exhausted) && calls == old(calls)
      ensures KnownMethod(httpMethod) && |old(calls)| < |script| ==>
        && out == Outcomes(script)[|old(calls)|]
        && calls == old(calls) + [Call(Text.Upper(httpMethod), endpoint, headers, params,
                                       if Text.Upper(httpMethod) == "GET" then None else data)]
    {
      var verb := Text.Upper(httpMethod);
      if verb != "GET" && verb != "POST" {
        return Err(ValueError("Unsupported method"));
      }
      if |calls| >= |script| {
        return Err(Exhausted);
      }
      var reply := script[|calls|];
      calls := calls + [Call(verb, endpoint, headers, params, if verb == "GET" then None else data)];
      out := Classify(reply);
    }

    /**
     * The decorated `__make_request`: the listed errors are retried, up to `max_tries` attempts
     * in total; the result is the first success, the first error outside the list, or the
     * error of the last attempt.
     */
    method Send(httpMethod: string, endpoint: string, headers: Headers, params: Params, data: Option<Payload>)
      returns (r: Result<Json, Error>)
      modifies this`calls
      ensures old(calls) <= calls
      ensures Outcome(r, |calls| - |old(calls)|) == Attempts(httpMethod, Outcomes(script), |old(calls)|, 1)
      ensures forall i :: |old(calls)| <= i < |calls| ==>
        calls[i] == Call(Text.Upper(httpMethod), endpoint, headers, params,
                         if Text.Upper(httpMethod) == "GET" then None else data)
    {
      var attempt := 1;
      ghost var first := |calls|;
      ghost var outs := Outcomes(script);
      while true
        invariant 1 <= attempt <= MaxTries && |calls| - first == attempt - 1 && old(calls) <= calls
        invariant first == |old(calls)|
        invariant var o := Attempts(httpMethod, outs, |calls|, attempt);
          Attempts(httpMethod, outs, first, 1) == Outcome(o.result, o.calls + (|calls| - first))
        invariant forall i :: first <= i < |calls| ==>
          calls[i] == Call(Text.Upper(httpMethod), endpoint, headers, params,
                           if Text.Upper(httpMethod) == "GET" then None else data)
        decreases MaxTries - attempt
      {
        ghost var before := calls;
        var out := RequestOnce(httpMethod, endpoint, headers, params, data);
        if out.Ok? || !Retryable(out.error) || attempt == MaxTries {
          return out;
        }
        RetryStep(httpMethod, outs, |before|, attempt);
        attempt := attempt + 1;
      }
    }

    /**
     * `make_request`: None params, headers and body become `{}`, an empty endpoint becomes
     * `base_url/path`, the headers are authenticated, and the request is sent.
     */
    method MakeRequest(httpMethod: string, endpoint: string, params: Option<Params>, headers: Option<Headers>,
                       body: Option<Payload>, path: Option<string>)
      returns (r: Result<Json, Error>)
      modifies this`calls
      ensures old(calls) <= calls
      ensures Outcome(r, |calls| - |old(calls)|) == Attempts(httpMethod, Outcomes(script), |old(calls)|, 1)
      ensures forall i :: |old(calls)| <= i < |calls| ==>
        calls[i] == Call(Text.Upper(httpMethod), RequestEndpoint(endpoint, path),
                         Authenticate(config, Some(headers.GetOr(map[])), None).0, params.GetOr(map[]),
                         if Text.Upper(httpMethod) == "GET" then None else Some(body.GetOr(map[])))
    {
      var p := params.GetOr(map[]);
      var h := headers.GetOr(map[]);
      var b := body.GetOr(map[]);
      var target := RequestEndpoint(endpoint, path);
      var authed := Authenticate(config, Some(h), Some(p));
      r := Send(httpMethod, target, authed.0, p, Some(b));
    }
  }
}
