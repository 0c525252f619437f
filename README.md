# TheAudioDB client: a Dafny model of its request and response logic

The Python package `theaudiodbapi` is an asynchronous client for the TheAudioDB music-metadata REST API,
reached through RapidAPI. It exposes one lookup, `get_track_info(artist, track)`, built on a single request
primitive, `_request`. This project models the logic the package owns:

- the four exception classes and their subclass relation, which decides which `except` clause and which
  retry filter catches an error (`exceptions.dfy`, module `Exceptions`);
- the track record `TheAudioDBTrackInfo`: its defaults and its field-by-field mapping from a search-result
  object (`models.dfy`, module `Models`);
- the classification of one HTTP attempt into a payload, an empty result or an exception: timeouts and client
  failures first, then 4xx/5xx statuses (429 is a rate-limit error, any other a generic error carrying the
  status), then 204, then decoding by Content-Type (`responses.dfy`, module `Responses`);
- the client handle: the authenticated header merge, the keyword arguments passed on to the session, the
  session created on first use, and the selection of the first search result (`client.dfy`, module
  `TheAudioDbApi`, class `Client`).

Supporting modules: `Wrappers` (Option and Result) and `Values` (decoded JSON values, Python built-in
exceptions, and Python's substring test `t in s` with its characterisation as "occurs at some index").

Modelling conventions:
- The transport is an input. `Responses.Transport` is what the session's request produced: a timeout, a client
  or resolver failure, or a status with an optional Content-Type and a body. A `Body` carries its decoded
  text and what `json.loads` makes of that text (`None` when the text is not JSON). An undecodable body raises
  the decoder's error, which is outside the package's exception taxonomy.
- Python's `None` in a record field is `JNull`. A JSON `null` also decodes to `None` in Python, so the two
  are one value.
- `status // 100` is Dafny's `/`. For the positive divisor 100, floor and Euclidean division agree for every
  integer status.
- The host name `API_HOST` comes from `const.py`. const.py is not part of this model, so `ApiHost` is a
  constant whose value is left open. `utils.try_get_from_dict` is not part of this model either. It is read
  as "the value under the key, or the fallback when the key is absent" (`Models.TryGet`).
- `Client.Request` and `Client.GetTrackInfo` state their whole effect. That is the call handed to the session,
  the outcome (`Responses.Classify` of the transport result, then `TheAudioDbApi.SearchResult`) and the
  session field. The ghost counter `sessionsCreated` and the invariant `Client.Valid` record that a handle
  creates at most one session, on its first request, and owns it from then on.
- ConnectionError subclasses ApiError (theaudiodbapi/exceptions.py:7), and RateLimitError subclasses
  ConnectionError (theaudiodbapi/exceptions.py:15). So the outer retry filter
  (theaudiodbapi/theaudiodbapi.py:40) also passes rate limits (`Exceptions.RetryFilters`).

## Model

| member | source | states |
|---|---|---|
| `Exceptions.IsA` | theaudiodbapi/exceptions.py:3-16 | `isinstance` over the declared base classes; a kind is an instance only of itself and of classes strictly closer to the root |
| `Exceptions.IsAMatchesSubclasses` | theaudiodbapi/exceptions.py:3-16 | following the declared base classes gives exactly the listed subclasses of each exception class |
| `Exceptions.IsATransitive` | theaudiodbapi/exceptions.py:3-16 | the subclass relation is transitive |
| `Exceptions.IsAAntisymmetric` | theaudiodbapi/exceptions.py:3-16 | no two distinct exception classes are subclasses of each other |
| `Exceptions.DeclaredBases` | theaudiodbapi/exceptions.py:7-16 | ConnectionTimeoutError and RateLimitError are ConnectionErrors; ConnectionError is an ApiError |
| `Exceptions.EveryKindIsApiError` | theaudiodbapi/exceptions.py:3-16 | every class of the taxonomy is an ApiError, so `except TheAudioDBApiError` catches them all |
| `Exceptions.Separations` | theaudiodbapi/exceptions.py:3-16 | a plain ApiError is not a ConnectionError; ConnectionTimeoutError and RateLimitError are siblings, neither a subclass of the other |
| `Exceptions.RetryFilters` | theaudiodbapi/theaudiodbapi.py:40-43 | the ConnectionError retry filter passes every kind except a plain ApiError, rate limits included; the RateLimitError filter passes rate limits only |
| `Values.Contains` | theaudiodbapi/theaudiodbapi.py:111 | Python's substring test `t in s`, scanning from the left; it never finds a string longer than `s` |
| `Values.ContainsIff` | theaudiodbapi/theaudiodbapi.py:111 | Python's `t in s` on strings holds exactly when `t` occurs at some index of `s` |
| `Values.ContainsSelf` | theaudiodbapi/theaudiodbapi.py:102-111 | a Content-Type equal to "application/json" also passes the containment test |
| `Models.BlankIsNone` | theaudiodbapi/models.py:13-18 | every field of a new record defaults to None |
| `Models.FromDict` | theaudiodbapi/models.py:20-26 | the constructor: each field takes the value under its own key (`name` from `strTrack`, `artist_name` from `strArtist`, `album_name` from `strAlbum`, `alternate_artist_name` from `strArtistAlternate`, `description` from `strDescriptionEN`, `track_thumb` from `strTrackThumb`), and stays None when that key is absent |
| `Models.SourceKeysDistinct` | theaudiodbapi/models.py:21-26 | no two fields read the same key |
| `Models.FieldLocality` | theaudiodbapi/models.py:21-26 | a field depends on its own key only: inputs that agree on that key give the same field |
| `Models.UnreadKeyIgnored` | theaudiodbapi/models.py:20-26 | adding or changing a key that no field reads leaves the whole record unchanged |
| `Responses.IsErrorStatus` | theaudiodbapi/theaudiodbapi.py:93 | `status // 100 in [4, 5]`, which holds exactly for 400 <= status < 600 |
| `Responses.Classify` | theaudiodbapi/theaudiodbapi.py:74-119 | a ConnectionTimeoutError comes exactly from a timeout, a ConnectionError exactly from a client failure, a RateLimitError exactly from status 429; a generic ApiError carries the response's own status, which is a 4xx/5xx other than 429; every 4xx/5xx raises; the empty result comes exactly from 204; a payload only from a non-error, non-204 status |
| `Responses.TransportFailures` | theaudiodbapi/theaudiodbapi.py:74-89 | a timeout raises ConnectionTimeoutError and a client failure ConnectionError, each with its fixed message, before any status logic |
| `Responses.RateLimitIgnoresContent` | theaudiodbapi/theaudiodbapi.py:97-100 | status 429 raises RateLimitError whatever the Content-Type and the body |
| `Responses.GenericErrorPayload` | theaudiodbapi/theaudiodbapi.py:102-104 | any other 4xx/5xx raises ApiError with that exact status; its payload is the parsed body when the Content-Type is exactly "application/json", and `{"message": text}` otherwise |
| `Responses.NoContentIgnoresBody` | theaudiodbapi/theaudiodbapi.py:107-109 | status 204 gives the empty result and no error, whatever the Content-Type and the body |
| `Responses.SuccessDecoding` | theaudiodbapi/theaudiodbapi.py:111-119 | any other status returns the body decoded as JSON when the Content-Type contains "application/json", and the raw text otherwise |
| `Responses.ContentTypeQuirk` | theaudiodbapi/theaudiodbapi.py:102-111 | with "application/json; charset=utf-8", a JSON error body is wrapped as a message while a JSON success body is decoded |
| `Responses.RaisedKindsAreApiErrors` | theaudiodbapi/theaudiodbapi.py:82-104 | every taxonomy exception that classification raises is an ApiError |
| `TheAudioDbApi.AuthenticatedIsOverride` | theaudiodbapi/theaudiodbapi.py:56-65 | the authenticated headers are exactly the caller's copy overridden by `X-RapidAPI-Key` = the API key and `X-RapidAPI-Host` = the host, so the mandatory values always win |
| `TheAudioDbApi.Forward` | theaudiodbapi/theaudiodbapi.py:76-81 | the keyword arguments passed on hold the merged headers under `headers` and every other argument of the caller unchanged, and nothing else |
| `TheAudioDbApi.ForwardAsWritten` | theaudiodbapi/theaudiodbapi.py:76-81 | the keyword arguments as the code passes them on; the call succeeds exactly when the caller did not pass `headers` |
| `TheAudioDbApi.CallerHeadersRejectedAsWritten` | theaudiodbapi/theaudiodbapi.py:76-81 | as written, a call that passes `headers` raises TypeError before any request is sent |
| `TheAudioDbApi.ForwardAgreesWithoutCallerHeaders` | theaudiodbapi/theaudiodbapi.py:76-81 | without caller headers, the code as written forwards what the intended version forwards |
| `TheAudioDbApi.Select` | theaudiodbapi/theaudiodbapi.py:124-126 | the intended selection from a JSON-object payload: a record exactly when `track` holds a non-empty list whose element 0 is an object, and then the record built from element 0 |
| `TheAudioDbApi.SelectAsWritten` | theaudiodbapi/theaudiodbapi.py:124-126 | the selection as written, including `len` on whatever `track` holds and the positional constructor call; it never yields a record |
| `TheAudioDbApi.SelectAbsentIff` | theaudiodbapi/theaudiodbapi.py:124-125 | the lookup returns None exactly when the `track` key is missing or holds an empty list (or an empty string or object, or null) |
| `TheAudioDbApi.SelectFirstOnly` | theaudiodbapi/theaudiodbapi.py:124-126 | a non-empty result list gives the record built from element 0, and the later elements do not matter |
| `TheAudioDbApi.SelectAsWrittenNeverBuilds` | theaudiodbapi/theaudiodbapi.py:126 | wherever the intended lookup builds a record, the code as written raises TypeError |
| `TheAudioDbApi.SelectAsWrittenAgrees` | theaudiodbapi/theaudiodbapi.py:124-125 | wherever the code as written returns None, the intended lookup returns None too |
| `TheAudioDbApi.NullTrackList` | theaudiodbapi/theaudiodbapi.py:124 | `{"track": null}` raises TypeError as written and gives None as intended |
| `TheAudioDbApi.SearchResult` | theaudiodbapi/theaudiodbapi.py:123-124 | `get_track_info` on the request's outcome, with Python's `in` for each payload type: a record only from a JSON-object payload, and a JSON-object payload gives exactly `Select`'s answer (record or none); every raised exception passes through unchanged; the empty 204 result raises TypeError |
| `TheAudioDbApi.FixYouExample` | theaudiodbapi/theaudiodbapi.py:121-126 | a status-200 JSON response whose one search result holds `strTrack` "Fix You" and `strArtist` "Coldplay" gives a record with those two fields and every other field None |
| `TheAudioDbApi.EmptySearchExample` | theaudiodbapi/theaudiodbapi.py:121-125 | a status-200 JSON response whose `track` list is empty, or which has no `track` key, gives no record |
| `TheAudioDbApi.SearchResultSources` | theaudiodbapi/theaudiodbapi.py:121-126 | a record only comes from a JSON-object payload of a non-error, non-204 response; every exception of the request reaches the caller unchanged |
| `TheAudioDbApi.Client.constructor` | theaudiodbapi/theaudiodbapi.py:32-38 | a new handle keeps the API key and has no session yet |
| `TheAudioDbApi.Client.OpenSession` | theaudiodbapi/theaudiodbapi.py:69-72 | the first call creates a fresh session and marks it as owned; later calls keep the same session; at most one is ever created |
| `TheAudioDbApi.Client.BuildHeaders` | theaudiodbapi/theaudiodbapi.py:56-65 | the result holds every caller header except the two mandatory names unchanged, the key header with the API key and the host header with the host, and no other entry |
| `TheAudioDbApi.Client.Request` | theaudiodbapi/theaudiodbapi.py:44-119 | one attempt: the call goes to the base URL plus the path, with authenticated headers and the caller's other arguments unchanged, on the handle's only session; the outcome is the classification of the transport result |
| `TheAudioDbApi.Client.GetTrackInfo` | theaudiodbapi/theaudiodbapi.py:121-126 | a GET of `/searchtrack.php` with query `s` = artist and `t` = track and authenticated headers; the result is the selection applied to the classified outcome |

## Findings

| source | as written | input that shows it | evidently intended | confidence | as-written member | corrected member |
|---|---|---|---|---|---|---|
| theaudiodbapi/theaudiodbapi.py:76-81 | `self._session.request(method, url, **kwargs, headers=headers)` names `headers` twice whenever the caller passed it, so Python raises TypeError and the header merge of lines 56-65 never reaches the session | `_request("GET", "/x", headers={"Accept": "text/plain"})` | the merged headers replace the caller's keyword argument | high, not executed | `TheAudioDbApi.ForwardAsWritten`, `TheAudioDbApi.CallerHeadersRejectedAsWritten` | `TheAudioDbApi.Forward` (used by `Client.Request`) |
| theaudiodbapi/theaudiodbapi.py:126 | `TheAudioDBTrackInfo(data['track'][0])` passes the result positionally, but models.py:20 declares `data` keyword-only, so the call raises TypeError whenever a record would be built | payload `{"track": [{"strTrack": "Fix You"}]}` | `TheAudioDBTrackInfo(data=data['track'][0])` | high, not executed | `TheAudioDbApi.SelectAsWritten`, `TheAudioDbApi.SelectAsWrittenNeverBuilds` | `TheAudioDbApi.Select`, `TheAudioDbApi.SelectFirstOnly` |
| theaudiodbapi/theaudiodbapi.py:124 | `len(data['track'])` is applied to whatever the key holds; a JSON null raises TypeError | payload `{"track": null}` | a null result list means "no result found" | medium (depends on the server answering a search without matches with null), not executed | `TheAudioDbApi.SelectAsWritten`, `TheAudioDbApi.NullTrackList` | `TheAudioDbApi.Select`, `TheAudioDbApi.SelectAbsentIff` |

## Left out

- aiohttp I/O is not modelled: `ClientSession.request`, reading and closing the response, the `async_timeout` scope and the suspension points. The result of the single attempt is the input `Responses.Transport`.
- aiohttp's own checks inside `response.json()` are left out: its Content-Type check and its None for an empty body. `response.json()` and `json.loads` are both read as "the body's JSON value, or a decoding error".
- UTF-8 decoding of the body is left out, and so is its error. The body arrives as text.
- The retry decorators (theaudiodbapi/theaudiodbapi.py:40-43) are not modelled: exponential delays, jitter and attempt counting belong to the `backoff` library. Only which error kinds each filter passes is modelled (`Exceptions.RetryFilters`).
- Logging is left out.
- `yarl.URL.build` normalisation is left out. The URL is `"https://" + ApiHost + uri`.
- The token refresh at theaudiodbapi/theaudiodbapi.py:46-48 is left out. It reads attributes the class never defines, and so do `request_timeout` (line 75) and `close()` (line 134). The session field starts as null and the ownership flag as false.
- `__aenter__` and `__aexit__` are left out. `__aexit__` calls `close()`, which the shown code never defines.
- `TheAudioDbApi.Arg`: a `headers` value that is neither None, a dictionary nor a list of pairs would make `dict()` at theaudiodbapi/theaudiodbapi.py:61 raise; the model reads it as no caller headers instead. Other keyword arguments of any kind are passed on unchanged (`Other`).
- `TheAudioDbApi.RecordOf`: a first search result that is not a JSON object yields `Unspecified`. The record's constructor would hand it to `try_get_from_dict`, which is not part of this model.
- `Models.TryGet` may be weaker than `try_get_from_dict`, whose exact behaviour is not part of this model (for instance on a None value). Since every fallback here is None, the two agree whenever the helper returns the fallback for a stored None.
- Header names are compared as exact strings. The case-insensitive merging that aiohttp applies when it sends headers is not modelled.
- Floating-point JSON numbers are not modelled; `Values.Json` has integers only.
- tests/test.py is left out. It is a live-network script with no assertions.
