/** The client handle: authenticated request construction, the lazily created session,
    and the track search built on top of them. */
module TheAudioDbApi {
  import opened Wrappers
  import opened Values
  import opened Models
  import opened Responses

  const KeyHeader: string := "X-RapidAPI-Key"
  const HostHeader: string := "X-RapidAPI-Host"
  /** The API host name; its value lives in const.py, which is not part of this model. */
  const ApiHost: string
  /** `str(URL.build(scheme='https', host=API_HOST))`. */
  const BaseUrl: string := "https://" + ApiHost
  const SearchPath: string := "/searchtrack.php"

  /** A keyword-argument value of `_request`: None, a string dictionary (headers, query parameters; a list of
      pairs stands here as the dictionary `dict()` makes of it), or any other value (a `json=` body, a
      `timeout=`), which the client passes on without looking at it and which a token identifies. */
  datatype Arg = NoneArg | Dict(entries: map<string, string>) | Other(token: nat)

  /** The call handed to the session: HTTP method, URL and keyword arguments. */
  datatype Call = Call(verb: string, url: string, kwargs: map<string, Arg>)

  /** The caller's headers as `_request` copies them: `kwargs.get("headers")`, or an empty dict for None.
      A value that `dict()` cannot copy counts as no headers here. */
  function CallerHeaders(kwargs: map<string, Arg>): map<string, string> {
    if "headers" in kwargs && kwargs["headers"].Dict? then kwargs["headers"].entries else map[]
  }

  /** `h` holds the caller's headers with the key and host headers set last: both mandatory headers carry
      their fixed values, every other caller header is kept as it was, and nothing else is added. */
  ghost predicate Authenticated(caller: map<string, string>, apiKey: string, h: map<string, string>) {
    && h.Keys == caller.Keys + {KeyHeader, HostHeader}
    && h[KeyHeader] == apiKey
    && h[HostHeader] == ApiHost
    && forall k :: k in caller && k != KeyHeader && k != HostHeader ==> h[k] == caller[k]
  }

  /** Authenticated headers are exactly the caller's map overridden by the two mandatory entries;
      in particular there is exactly one such map. */
  lemma AuthenticatedIsOverride(caller: map<string, string>, apiKey: string, h: map<string, string>)
    ensures Authenticated(caller, apiKey, h) <==> h == caller[KeyHeader := apiKey][HostHeader := ApiHost]
  {
  }

  /** The keyword arguments passed on to the session, as written: `**kwargs, headers=headers` names
      `headers` twice when the caller gave it, and Python raises TypeError before any request is sent. */
  function ForwardAsWritten(kwargs: map<string, Arg>, headers: map<string, string>): (r: Result<map<string, Arg>, BuiltinError>)
    ensures r.Success? <==> "headers" !in kwargs
  {
    if "headers" in kwargs then Failure(TypeError) else Success(kwargs["headers" := Dict(headers)])
  }

  /** The keyword arguments passed on to the session, as intended: the merged headers replace the caller's,
      and every other keyword argument is passed through unchanged. */
  function Forward(kwargs: map<string, Arg>, headers: map<string, string>): (fw: map<string, Arg>)
    ensures fw.Keys == kwargs.Keys + {"headers"}
    ensures fw["headers"] == Dict(headers)
    ensures forall k :: k in kwargs && k != "headers" ==> fw[k] == kwargs[k]
  {
    kwargs["headers" := Dict(headers)]
  }

  /** Any call that passes `headers` fails as written, so the caller's headers never reach the session. */
  lemma CallerHeadersRejectedAsWritten(kwargs: map<string, Arg>, headers: map<string, string>)
    requires "headers" in kwargs
    ensures ForwardAsWritten(kwargs, headers) == Failure(TypeError)
  {
  }

  /** Without caller headers, the code as written forwards what the intended version forwards. */
  lemma ForwardAgreesWithoutCallerHeaders(kwargs: map<string, Arg>, headers: map<string, string>)
    requires "headers" !in kwargs
    ensures ForwardAsWritten(kwargs, headers) == Success(Forward(kwargs, headers))
  {
  }

  /** What `get_track_info` returns or raises. `Unspecified` marks a first result that is not an object:
      the record's constructor then hands a non-dictionary to a helper that is not part of this model. */
  datatype TrackResult = NoTrack | Track(info: TrackInfo) | Fails(failure: Failure) | Unspecified

  /** The value under "track" holds no results: `len(...) == 0`, or null (no match on the server). */
  predicate NoResults(v: Json) {
    v == JNull || v == JStr("") || v == JArr([]) || v == JObj(map[])
  }

  /** The record built from the first result by a keyword call of the constructor. */
  function RecordOf(first: Json): TrackResult {
    match first
    case JObj(fields) => Track(FromDict(fields))
    case _ => Unspecified
  }

  /** Selection from a JSON-object payload, as written: `'track' in data`, `len(data['track']) == 0`,
      then a positional call of a constructor whose `data` parameter is keyword-only. */
  function SelectAsWritten(data: map<string, Json>): (r: TrackResult)
    ensures !r.Track?
  {
    if "track" !in data then NoTrack
    else match data["track"]
      case JNull => Fails(BuiltinFailure(TypeError))
      case JBool(_) => Fails(BuiltinFailure(TypeError))
      case JNum(_) => Fails(BuiltinFailure(TypeError))
      case JStr(s) => if |s| == 0 then NoTrack else Fails(BuiltinFailure(TypeError))
      case JObj(m) => if |m| == 0 then NoTrack else Fails(BuiltinFailure(KeyError))
      case JArr(items) => if |items| == 0 then NoTrack else Fails(BuiltinFailure(TypeError))
  }

  /** Selection from a JSON-object payload, as intended: a null list means no result, and the record is
      built from element 0 by a keyword call. */
  function Select(data: map<string, Json>): (r: TrackResult)
    ensures r.Track? <==> "track" in data && data["track"].JArr? && |data["track"].items| > 0
                          && data["track"].items[0].JObj?
    ensures r.Track? ==> r.info == FromDict(data["track"].items[0].fields)
  {
    if "track" !in data then NoTrack
    else match data["track"]
      case JNull => NoTrack
      case JBool(_) => Fails(BuiltinFailure(TypeError))
      case JNum(_) => Fails(BuiltinFailure(TypeError))
      case JStr(s) => if |s| == 0 then NoTrack else Unspecified
      case JObj(m) => if |m| == 0 then NoTrack else Fails(BuiltinFailure(KeyError))
      case JArr(items) => if |items| == 0 then NoTrack else RecordOf(items[0])
  }

  /** Selection answers "no result" exactly when the "track" key is missing or holds no results. */
  lemma SelectAbsentIff(data: map<string, Json>)
    ensures Select(data) == NoTrack <==> "track" !in data || NoResults(data["track"])
  {
  }

  /** A non-empty result list gives the record of its element 0, and nothing after it matters. */
  lemma SelectFirstOnly(data: map<string, Json>, first: Json, rest: seq<Json>)
    requires "track" in data && data["track"] == JArr([first] + rest)
    ensures Select(data) == RecordOf(first)
    ensures Select(data) == Select(map["track" := JArr([first])])
  {
  }

  /** Wherever the intended selection builds a record, the code as written raises TypeError from the constructor call. */
  lemma SelectAsWrittenNeverBuilds(data: map<string, Json>)
    ensures Select(data).Track? ==> SelectAsWritten(data) == Fails(BuiltinFailure(TypeError))
  {
  }

  /** Where the code as written returns normally, the intended selection returns the same. */
  lemma SelectAsWrittenAgrees(data: map<string, Json>)
    requires SelectAsWritten(data) == NoTrack
    ensures Select(data) == NoTrack
  {
  }

  /** The server's answer for "no match", `{"track": null}`, raises TypeError as written. */
  lemma NullTrackList()
    ensures SelectAsWritten(map["track" := JNull]) == Fails(BuiltinFailure(TypeError))
    ensures Select(map["track" := JNull]) == NoTrack
  {
  }

  /** The search for "Fix You" by Coldplay, from the received JSON response to the record: name and artist
      come from the first result, the rest stay None. */
  lemma FixYouExample(text: string)
    ensures var first := JObj(map["strTrack" := JStr("Fix You"), "strArtist" := JStr("Coldplay")]);
            var payload := JObj(map["track" := JArr([first])]);
            SearchResult(Classify(Received(200, Some(JsonMime), Body(text, Some(payload)))))
              == Track(TrackInfo(JStr("Coldplay"), JNull, JNull, JStr("Fix You"), JNull, JNull))
  {
    ContainsSelf(JsonMime);
  }

  /** A received JSON response whose `track` list is empty, or which has no `track` key, gives no record. */
  lemma EmptySearchExample(text: string)
    ensures SearchResult(Classify(Received(200, Some(JsonMime), Body(text, Some(JObj(map["track" := JArr([])])))))) == NoTrack
    ensures SearchResult(Classify(Received(200, Some(JsonMime), Body(text, Some(JObj(map[])))))) == NoTrack
  {
    ContainsSelf(JsonMime);
  }

  /** `get_track_info` on the outcome of its request: exceptions propagate, and `'track' in data` follows
      Python's rules for the payload's type (a key test on an object, a substring test on text, an element
      test on a list, TypeError on None, a number or a boolean). */
  function SearchResult(o: Outcome): (r: TrackResult)
    ensures r.Track? ==> o.Returned? && o.payload.JsonPayload? && o.payload.value.JObj?
    ensures o.Returned? && o.payload.JsonPayload? && o.payload.value.JObj? ==> r == Select(o.payload.value.fields)
    ensures o.Raised? ==> r == Fails(o.failure)
    ensures o.NoContent? ==> r == Fails(BuiltinFailure(TypeError))
  {
    match o
    case Raised(f) => Fails(f)
    case NoContent => Fails(BuiltinFailure(TypeError))
    case Returned(TextPayload(s)) => if Contains(s, "track") then Fails(BuiltinFailure(TypeError)) else NoTrack
    case Returned(JsonPayload(j)) =>
      match j
      case JObj(m) => Select(m)
      case JStr(s) => if Contains(s, "track") then Fails(BuiltinFailure(TypeError)) else NoTrack
      case JArr(items) => if JStr("track") in items then Fails(BuiltinFailure(TypeError)) else NoTrack
      case _ => Fails(BuiltinFailure(TypeError))
  }

  /** A record only ever comes from a JSON-object payload of a non-error response, and every failure of
      the request reaches the caller unchanged. */
  lemma SearchResultSources(t: Transport)
    ensures SearchResult(Classify(t)).Track? ==>
              Classify(t).Returned? && Classify(t).payload.JsonPayload? && Classify(t).payload.value.JObj?
              && t.Received? && !(400 <= t.status < 600) && t.status != 204
    ensures Classify(t).Raised? ==> SearchResult(Classify(t)) == Fails(Classify(t).failure)
  {
  }

  /** An aiohttp ClientSession; its connections are not part of this model. */
  class Session {
    constructor ()
    {
    }
  }

  /** TheAudioDBApi: the API key and a session created on the first request. */
  class Client {
    const apiKey: string
    var session: Session?
    /** Whether the handle created, and so must close, its session. */
    var closeSession: bool
    /** How many sessions this handle has created. */
    ghost var sessionsCreated: nat

    /** At most one session is ever created, and the handle owns it once it exists. */
    ghost predicate Valid()
      reads this
    {
      && sessionsCreated <= 1
      && (session == null <==> sessionsCreated == 0)
      && (closeSession <==> session != null)
    }

    constructor (apiKey: string)
      ensures Valid()
      ensures this.apiKey == apiKey && session == null && sessionsCreated == 0
    {
      this.apiKey := apiKey;
      session := null;
      closeSession := false;
      sessionsCreated := 0;
    }

    /** Creates the session on first use and reuses it afterwards. */
    method OpenSession()
      requires Valid()
      modifies this
      ensures Valid() && session != null && sessionsCreated == 1
      ensures old(session) != null ==> session == old(session)
      ensures old(session) == null ==> fresh(session)
    {
      if session == null {
        session := new Session();
        closeSession := true;
        sessionsCreated := sessionsCreated + 1;
      }
    }

    /** Copies the caller's headers and sets the key and host headers last. */
    method BuildHeaders(kwargs: map<string, Arg>) returns (headers: map<string, string>)
      ensures Authenticated(CallerHeaders(kwargs), apiKey, headers)
    {
      var given := if "headers" in kwargs then kwargs["headers"] else NoneArg;
      match given {
        case NoneArg => headers := map[];
        case Dict(entries) => headers := entries;
        case Other(_) => headers := map[];
      }
      headers := headers[KeyHeader := apiKey];
      headers := headers[HostHeader := ApiHost];
    }

    /** `_request`: one attempt. `transport` is what the session's request produced. */
    method Request(verb: string, uri: string, kwargs: map<string, Arg>, transport: Transport)
      returns (sent: Call, o: Outcome)
      requires Valid()
      modifies this
      ensures Valid() && session != null && sessionsCreated == 1
      ensures old(session) != null ==> session == old(session)
      ensures old(session) == null ==> fresh(session)
      ensures sent.verb == verb && sent.url == BaseUrl + uri
      ensures sent.kwargs.Keys == kwargs.Keys + {"headers"}
      ensures sent.kwargs["headers"].Dict?
      ensures Authenticated(CallerHeaders(kwargs), apiKey, sent.kwargs["headers"].entries)
      ensures forall k :: k in kwargs && k != "headers" ==> sent.kwargs[k] == kwargs[k]
      ensures o == Classify(transport)
    {
      var url := BaseUrl + uri;
      var headers := BuildHeaders(kwargs);
      OpenSession();
      sent := Call(verb, url, Forward(kwargs, headers));
      o := Classify(transport);
    }

    /** `get_track_info`: a GET search with the artist and the track as query parameters. */
    method GetTrackInfo(artist: string, track: string, transport: Transport)
      returns (sent: Call, r: TrackResult)
      requires Valid()
      modifies this
      ensures Valid() && session != null && sessionsCreated == 1
      ensures old(session) != null ==> session == old(session)
      ensures old(session) == null ==> fresh(session)
      ensures sent.verb == "GET" && sent.url == BaseUrl + SearchPath
      ensures sent.kwargs.Keys == {"params", "headers"}
      ensures sent.kwargs["params"] == Dict(map["s" := artist, "t" := track])
      ensures sent.kwargs["headers"].Dict? && Authenticated(map[], apiKey, sent.kwargs["headers"].entries)
      ensures r == SearchResult(Classify(transport))
    {
      var o;
      sent, o := Request("GET", SearchPath, map["params" := Dict(map["s" := artist, "t" := track])], transport);
      r := SearchResult(o);
    }
  }
}
