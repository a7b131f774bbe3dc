/**
 * What the core needs of `util.GetJSON` and of `net/url`: the request it is
 * given, and what it comes back with.  Performing the request, reading the
 * body and unmarshalling the JSON are not modelled; the outcome is an input.
 */
module Http {
  import opened Errors

  /** A query string: a parameter name maps to its list of values, as in `url.Values`. */
  type Query = map<string, seq<string>>

  /** A GET request: the endpoint and its query parameters. */
  datatype Request = Request(url: string, query: Query)

  /**
   * What `GetJSON` leaves behind: the unmarshalled payload, or its error (an
   * HTTPError for a non-2xx status, otherwise an annotated transport, body or
   * JSON error).
   */
  datatype Fetch<T> = Fetched(payload: T) | Failed(err: Err)

  /** `url.Values.Get`: the first value of the parameter, or "" when it has none. */
  function QueryGet(query: Query, key: string): (v: string)
    ensures v != "" ==> key in query && |query[key]| > 0 && query[key][0] == v
    ensures key in query && |query[key]| > 0 ==> v == query[key][0]
  {
    if key in query && |query[key]| > 0 then query[key][0] else ""
  }
}
