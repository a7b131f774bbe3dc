/**
 * The error values the service creates, wraps and inspects, and the two
 * inspections of the Go standard library it relies on: `errors.Is` and
 * `errors.As`.
 */
module Errors {
  import opened Wrappers

  /** Every error the core can see. */
  datatype Err =
    | LocationNotFound                          // openweather.ErrLocationNotFound
    | EntryNotFound                             // wiki.ErrEntryNotFound
    | Canceled                                  // context.Canceled
    | HTTPError(statusCode: int, body: string)  // util.HTTPError: a response with a non-2xx status
    | Other(msg: string)                        // any other error that wraps nothing
    | Wrapped(prefix: string, inner: Err)       // fmt.Errorf("<prefix>: %w", inner)

  /** Go's `(value, error)` result pair; `err == None` is a nil error. */
  datatype Outcome<T> = Outcome(value: T, err: Option<Err>)

  const LocationNotFoundText := "location not found"
  const EntryNotFoundText := "wikipedia entry not found"
  const CanceledText := "context canceled"

  /** The sentinels: package-level error values that callers compare against. */
  predicate IsSentinel(e: Err) {
    e.LocationNotFound? || e.EntryNotFound? || e.Canceled?
  }

  /** `http.StatusText` for the error statuses the two providers answer with; "" for any other code. */
  function StatusText(code: int): (text: string)
    ensures text != "" ==> 400 <= code < 600
    ensures code == 404 ==> text == "Not Found"
  {
    match code
    case 400 => "Bad Request"
    case 401 => "Unauthorized"
    case 403 => "Forbidden"
    case 404 => "Not Found"
    case 429 => "Too Many Requests"
    case 500 => "Internal Server Error"
    case 502 => "Bad Gateway"
    case 503 => "Service Unavailable"
    case 504 => "Gateway Timeout"
    case _ => ""
  }

  /**
   * `err.Error()`.  A sentinel's message is its fixed text; a wrapped
   * error's message starts with its annotation; an HTTPError's message
   * (`util.HTTPError.Error`) ends with the response body.
   */
  function Message(e: Err): (m: string)
    ensures e == LocationNotFound ==> m == LocationNotFoundText
    ensures e == EntryNotFound ==> m == EntryNotFoundText
    ensures e == Canceled ==> m == CanceledText
    ensures e.Wrapped? ==> |m| > |e.prefix| + 1 && m[..|e.prefix| + 2] == e.prefix + ": "
    ensures e.HTTPError? ==> |m| >= |e.body| && m[|m| - |e.body|..] == e.body
  {
    match e
    case LocationNotFound => LocationNotFoundText
    case EntryNotFound => EntryNotFoundText
    case Canceled => CanceledText
    case HTTPError(code, body) => StatusText(code) + ": " + body
    case Other(msg) => msg
    case Wrapped(prefix, inner) => prefix + ": " + Message(inner)
  }

  /**
   * `errors.Is(e, target)`: `e` is `target`, or the error it wraps is,
   * transitively.  An error that wraps nothing matches only itself.
   */
  predicate Is(e: Err, target: Err): (b: bool)
    ensures e == target ==> b
    ensures !e.Wrapped? ==> (b <==> e == target)
  {
    e == target || (e.Wrapped? && Is(e.inner, target))
  }

  /** The error at the bottom of a chain of wraps: the one that wraps nothing. */
  function Cause(e: Err): (c: Err)
    ensures !c.Wrapped?
    ensures Is(e, c)
  {
    if e.Wrapped? then Cause(e.inner) else e
  }

  /** Against a target that wraps nothing, `errors.Is` only looks at the bottom of the chain. */
  lemma {:induction false} IsUnwrappedIffCause(e: Err, target: Err)
    requires !target.Wrapped?
    ensures Is(e, target) <==> Cause(e) == target
  {
    if e.Wrapped? {
      IsUnwrappedIffCause(e.inner, target);
    }
  }

  /** A chain of wraps matches at most one error that wraps nothing, e.g. never two different sentinels. */
  lemma MatchesAtMostOneUnwrapped(e: Err, t1: Err, t2: Err)
    requires !t1.Wrapped? && !t2.Wrapped?
    requires Is(e, t1) && Is(e, t2)
    ensures t1 == t2
  {
    IsUnwrappedIffCause(e, t1);
    IsUnwrappedIffCause(e, t2);
  }

  /**
   * `errors.As(e, &httperr)`: the status code of the HTTPError in the chain,
   * if there is one.  An HTTPError wraps nothing, so it can only be the cause.
   */
  function AsHTTPError(e: Err): (code: Option<int>)
    ensures code.Some? <==> Cause(e).HTTPError?
    ensures code.Some? ==> code.value == Cause(e).statusCode
  {
    match e
    case HTTPError(c, _) => Some(c)
    case Wrapped(_, inner) => AsHTTPError(inner)
    case _ => None
  }

  /** Wrapping with `%w` keeps every match of the wrapped error and adds only the wrapper itself. */
  lemma WrappedIs(prefix: string, e: Err, target: Err)
    ensures Is(Wrapped(prefix, e), target) <==> (target == Wrapped(prefix, e) || Is(e, target))
  {
  }
}
