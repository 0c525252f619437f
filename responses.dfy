/** Translating the outcome of one HTTP attempt into a payload, an empty result or an exception. */
module Responses {
  import opened Wrappers
  import opened Values
  import opened Exceptions

  const JsonMime: string := "application/json"
  const TimeoutMessage: string := "Timeout occurred while connecting to the TheAudioDB API"
  const ConnectionMessage: string := "Error occurred while communicating with the TheAudioDB API"
  const RateLimitMessage: string := "Rate limit error has occurred with the TheAudioDB API"

  /** A received body: its text, and what `json.loads` makes of that text (None when it is not JSON). */
  datatype Body = Body(text: string, json: Option<Json>)

  /** What the session's `request` call produced: the timeout fired, the client library or the
      resolver failed, or a response arrived with a status, an optional Content-Type header and a body. */
  datatype Transport =
    | TimedOut
    | ClientFailed
    | Received(status: int, contentType: Option<string>, body: Body)

  /** An exception leaving `_request`. */
  datatype Failure =
    | TimeoutFailure(message: string)
    | ConnectionFailure(message: string)
    | RateLimitFailure(message: string)
    | ApiFailure(status: int, payload: Json)
    | BuiltinFailure(error: BuiltinError)
  {
    /** The class of the exception within the client's taxonomy; None for a built-in exception. */
    function Kind(): Option<ErrorKind> {
      match this
      case TimeoutFailure(_) => Some(ConnectionTimeoutError)
      case ConnectionFailure(_) => Some(ConnectionError)
      case RateLimitFailure(_) => Some(RateLimitError)
      case ApiFailure(_, _) => Some(ApiError)
      case BuiltinFailure(_) => None
    }
  }

  datatype Payload = JsonPayload(value: Json) | TextPayload(text: string)

  /** A returned payload, the bare `return` of the 204 case, or a raised exception. */
  datatype Outcome = Returned(payload: Payload) | NoContent | Raised(failure: Failure)

  /** `status // 100 in [4, 5]`; for the positive divisor 100, Python's floor division and
      Dafny's Euclidean division agree. */
  predicate IsErrorStatus(status: int)
    ensures IsErrorStatus(status) <==> 400 <= status < 600
  {
    status / 100 == 4 || status / 100 == 5
  }

  /** The decoded body, or the decoder's exception. */
  function ParsedBody(body: Body): Result<Json, Failure> {
    match body.json
    case Some(j) => Success(j)
    case None => Failure(BuiltinFailure(JsonDecodeError))
  }

  /** Classification of one attempt: transport failures first, then error statuses, then 204,
      then decoding by Content-Type. */
  function Classify(t: Transport): (o: Outcome)
    ensures o.Raised? && o.failure.Kind() == Some(ConnectionTimeoutError) <==> t.TimedOut?
    ensures o.Raised? && o.failure.Kind() == Some(ConnectionError) <==> t.ClientFailed?
    ensures o.Raised? && o.failure.Kind() == Some(RateLimitError) <==> t.Received? && t.status == 429
    ensures o.Raised? && o.failure.ApiFailure? ==>
              t.Received? && o.failure.status == t.status && 400 <= t.status < 600 && t.status != 429
    ensures t.Received? && 400 <= t.status < 600 ==> o.Raised?
    ensures o.NoContent? <==> t.Received? && t.status == 204
    ensures o.Returned? ==> t.Received? && !(400 <= t.status < 600) && t.status != 204
  {
    match t
    case TimedOut => Raised(TimeoutFailure(TimeoutMessage))
    case ClientFailed => Raised(ConnectionFailure(ConnectionMessage))
    case Received(status, header, body) =>
      var contentType := header.GetOr("");
      if IsErrorStatus(status) then
        if status == 429 then
          Raised(RateLimitFailure(RateLimitMessage))
        else if contentType == JsonMime then
          match ParsedBody(body)
          case Success(j) => Raised(ApiFailure(status, j))
          case Failure(f) => Raised(f)
        else
          Raised(ApiFailure(status, JObj(map["message" := JStr(body.text)])))
      else if status == 204 then
        NoContent
      else if Contains(contentType, JsonMime) then
        match ParsedBody(body)
        case Success(j) => Returned(JsonPayload(j))
        case Failure(f) => Raised(f)
      else
        Returned(TextPayload(body.text))
  }

  /** A timeout becomes ConnectionTimeoutError, any other client failure ConnectionError. */
  lemma TransportFailures()
    ensures Classify(TimedOut) == Raised(TimeoutFailure(TimeoutMessage))
    ensures Classify(ClientFailed) == Raised(ConnectionFailure(ConnectionMessage))
  {
  }

  /** Status 429 is a rate-limit error whatever the Content-Type and the body. */
  lemma RateLimitIgnoresContent(contentType: Option<string>, body: Body)
    ensures Classify(Received(429, contentType, body)) == Raised(RateLimitFailure(RateLimitMessage))
  {
  }

  /** Any other 4xx or 5xx is a generic API error carrying that status; its payload is the parsed body
      exactly when the Content-Type is exactly "application/json", and a message wrapper otherwise. */
  lemma GenericErrorPayload(status: int, contentType: Option<string>, body: Body)
    requires 400 <= status < 600 && status != 429
    ensures contentType == Some(JsonMime) && body.json.Some? ==>
              Classify(Received(status, contentType, body)) == Raised(ApiFailure(status, body.json.value))
    ensures contentType == Some(JsonMime) && body.json.None? ==>
              Classify(Received(status, contentType, body)) == Raised(BuiltinFailure(JsonDecodeError))
    ensures contentType != Some(JsonMime) ==>
              Classify(Received(status, contentType, body))
                == Raised(ApiFailure(status, JObj(map["message" := JStr(body.text)])))
  {
  }

  /** Status 204 is an empty result and no error, whatever the Content-Type and the body. */
  lemma NoContentIgnoresBody(contentType: Option<string>, body: Body)
    ensures Classify(Received(204, contentType, body)) == NoContent
  {
  }

  /** Any other status returns the body, decoded as JSON exactly when the Content-Type contains
      "application/json" and as text otherwise. */
  lemma SuccessDecoding(status: int, contentType: Option<string>, body: Body)
    requires !(400 <= status < 600) && status != 204
    ensures Contains(contentType.GetOr(""), JsonMime) && body.json.Some? ==>
              Classify(Received(status, contentType, body)) == Returned(JsonPayload(body.json.value))
    ensures Contains(contentType.GetOr(""), JsonMime) && body.json.None? ==>
              Classify(Received(status, contentType, body)) == Raised(BuiltinFailure(JsonDecodeError))
    ensures !Contains(contentType.GetOr(""), JsonMime) ==>
              Classify(Received(status, contentType, body)) == Returned(TextPayload(body.text))
  {
  }

  /** The error path compares the Content-Type for equality and the success path for containment:
      with a charset parameter, a JSON error body is wrapped as text while a JSON success body is decoded. */
  lemma ContentTypeQuirk(text: string, j: Json)
    ensures Classify(Received(500, Some("application/json; charset=utf-8"), Body(text, Some(j))))
              == Raised(ApiFailure(500, JObj(map["message" := JStr(text)])))
    ensures Classify(Received(200, Some("application/json; charset=utf-8"), Body(text, Some(j))))
              == Returned(JsonPayload(j))
  {
    var ct := "application/json; charset=utf-8";
    assert ct[..|JsonMime|] == JsonMime;
  }

  /** Every exception of the taxonomy that classification raises is caught by `except TheAudioDBApiError`. */
  lemma RaisedKindsAreApiErrors(t: Transport)
    ensures Classify(t).Raised? && Classify(t).failure.Kind().Some? ==>
              IsA(Classify(t).failure.Kind().value, ApiError)
  {
  }
}
