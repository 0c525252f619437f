/** The four exception classes of the client and their subclass relation. */
module Exceptions {
  import opened Wrappers

  /** TheAudioDBApiError, TheAudioDBApiConnectionError,
      TheAudioDBApiConnectionTimeoutError, TheAudioDBApiRateLimitError. */
  datatype ErrorKind = ApiError | ConnectionError | ConnectionTimeoutError | RateLimitError

  /** The declared base class; ApiError derives from Python's Exception, which is outside the taxonomy. */
  function Parent(k: ErrorKind): Option<ErrorKind> {
    match k
    case ApiError => None
    case ConnectionError => Some(ApiError)
    case ConnectionTimeoutError => Some(ConnectionError)
    case RateLimitError => Some(ConnectionError)
  }

  /** Distance from the root of the taxonomy. */
  function Depth(k: ErrorKind): nat {
    match k
    case ApiError => 0
    case ConnectionError => 1
    case ConnectionTimeoutError => 2
    case RateLimitError => 2
  }

  /** `isinstance`: an error of kind `k` is an instance of class `a`, following the base-class chain. */
  predicate IsA(k: ErrorKind, a: ErrorKind)
    ensures IsA(k, a) && k != a ==> Depth(a) < Depth(k)
    decreases Depth(k)
  {
    k == a || (Parent(k).Some? && IsA(Parent(k).value, a))
  }

  /** The kinds an `except a:` clause catches, listed outright. */
  function Subclasses(a: ErrorKind): set<ErrorKind> {
    match a
    case ApiError => {ApiError, ConnectionError, ConnectionTimeoutError, RateLimitError}
    case ConnectionError => {ConnectionError, ConnectionTimeoutError, RateLimitError}
    case ConnectionTimeoutError => {ConnectionTimeoutError}
    case RateLimitError => {RateLimitError}
  }

  /** Following the base-class chain gives exactly the listed subclasses. */
  lemma IsAMatchesSubclasses(k: ErrorKind, a: ErrorKind)
    ensures IsA(k, a) <==> k in Subclasses(a)
  {
  }

  /** The subclass relation is transitive. */
  lemma IsATransitive(k: ErrorKind, b: ErrorKind, a: ErrorKind)
    requires IsA(k, b) && IsA(b, a)
    ensures IsA(k, a)
  {
  }

  /** The subclass relation is antisymmetric: no two kinds are subclasses of each other. */
  lemma IsAAntisymmetric(k: ErrorKind, a: ErrorKind)
    requires IsA(k, a) && IsA(a, k)
    ensures k == a
  {
  }

  /** The declared edges: timeouts and rate limits are connection errors, connection errors are API errors. */
  lemma DeclaredBases()
    ensures IsA(ConnectionTimeoutError, ConnectionError)
    ensures IsA(RateLimitError, ConnectionError)
    ensures IsA(ConnectionError, ApiError)
  {
  }

  /** `except TheAudioDBApiError` catches every error of the taxonomy. */
  lemma EveryKindIsApiError(k: ErrorKind)
    ensures IsA(k, ApiError)
  {
  }

  /** A plain API error is not a connection error, and timeouts and rate limits are siblings. */
  lemma Separations()
    ensures !IsA(ApiError, ConnectionError)
    ensures !IsA(ConnectionTimeoutError, RateLimitError)
    ensures !IsA(RateLimitError, ConnectionTimeoutError)
  {
  }

  /** Which of the two retry filters of `_request` an error kind passes: the outer one retries every
      connection error, including rate limits; the inner one only rate limits. */
  lemma RetryFilters(k: ErrorKind)
    ensures IsA(k, ConnectionError) <==> k != ApiError
    ensures IsA(k, RateLimitError) <==> k == RateLimitError
  {
  }
}
