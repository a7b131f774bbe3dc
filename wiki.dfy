/**
 * The Wikipedia client (`wiki.SimpleExtract`): the request it sends, and how
 * it picks an extract, or an error, out of what `GetJSON` leaves behind.
 */
module Wiki {
  import opened Wrappers
  import opened Errors
  import opened Http

  const Endpoint := "https://en.wikipedia.org/w/api.php"
  const ErrorPrefix := "get wiki extract"
  /** The page key the API answers with for a title it does not know. */
  const MissingPageKey := "-1"

  /** The part of the JSON answer the client reads: page key to that page's `extract`. */
  datatype ExtractResponse = ExtractResponse(pages: map<string, string>)

  /** The request for the plain-text introduction of the article titled `topicName`. */
  function ExtractRequest(topicName: string): (r: Request)
    ensures r.url == Endpoint
    ensures r.query.Keys == {"exintro", "explaintext", "action", "prop", "titles", "format"}
    ensures QueryGet(r.query, "titles") == topicName
    ensures r.query["titles"] == [topicName]
    ensures QueryGet(r.query, "action") == "query" && QueryGet(r.query, "prop") == "extracts"
    ensures QueryGet(r.query, "exintro") == "true" && QueryGet(r.query, "explaintext") == "true"
    ensures QueryGet(r.query, "format") == "json"
  {
    Request(Endpoint, map[
      "exintro" := ["true"],
      "explaintext" := ["true"],
      "action" := ["query"],
      "prop" := ["extracts"],
      "titles" := [topicName],
      "format" := ["json"]])
  }

  /**
   * The answers `SimpleExtract` may give.  Go leaves the order of a map's
   * iteration unspecified, so when there are several pages any one of their
   * extracts may be the answer.
   */
  ghost predicate Possible(fetched: Fetch<ExtractResponse>, r: Outcome<string>) {
    match fetched
    case Failed(e) => r == Outcome("", Some(Wrapped(ErrorPrefix, e)))
    case Fetched(resp) =>
      if MissingPageKey in resp.pages then r == Outcome("", Some(EntryNotFound))
      else if resp.pages == map[] then r == Outcome("", None)
      else r.err.None? && r.value in resp.pages.Values
  }

  /**
   * `SimpleExtract(ctx, topicName)`: `get` is `GetJSON`, the API's answer to
   * a request.  The client asks for the article by title and answers with
   * what the API said about that request; the `for ... range` with `break`
   * reads one page, any page.
   */
  method SimpleExtract(topicName: string, get: Request -> Fetch<ExtractResponse>) returns (r: Outcome<string>)
    ensures Possible(get(ExtractRequest(topicName)), r)
  {
    var fetched := get(ExtractRequest(topicName));
    if fetched.Failed? {
      return Outcome("", Some(Wrapped(ErrorPrefix, fetched.err)));
    }
    var pages := fetched.payload.pages;
    if MissingPageKey in pages {
      return Outcome("", Some(EntryNotFound));
    }
    var firstDescription := "";
    if key :| key in pages {
      firstDescription := pages[key];
    }
    return Outcome(firstDescription, None);
  }

  /** Whenever there is an error, the extract is empty. */
  lemma ErrorMeansEmpty(fetched: Fetch<ExtractResponse>, r: Outcome<string>)
    requires Possible(fetched, r)
    ensures r.err.Some? ==> r.value == ""
  {
  }

  /**
   * How the client's answer classifies: not found exactly when the page list
   * holds the missing-page key or the failure already was not-found, and a
   * cancellation exactly when the failure was one.
   */
  lemma SimpleExtractErrorKinds(fetched: Fetch<ExtractResponse>, r: Outcome<string>)
    requires Possible(fetched, r)
    ensures r.err.Some? <==> fetched.Failed? || MissingPageKey in fetched.payload.pages
    ensures r.err.Some? && Is(r.err.value, EntryNotFound) <==>
              (fetched.Failed? && Is(fetched.err, EntryNotFound)) ||
              (fetched.Fetched? && MissingPageKey in fetched.payload.pages)
    ensures r.err.Some? && Is(r.err.value, Canceled) <==> fetched.Failed? && Is(fetched.err, Canceled)
    ensures r.err.Some? && Is(r.err.value, LocationNotFound) <==> fetched.Failed? && Is(fetched.err, LocationNotFound)
  {
  }

  /** With at most one page the answer is determined: that page's extract, or "" for none. */
  lemma SinglePageDeterministic(fetched: Fetch<ExtractResponse>, r: Outcome<string>, key: string)
    requires fetched.Fetched? && MissingPageKey !in fetched.payload.pages
    requires fetched.payload.pages.Keys <= {key}
    requires Possible(fetched, r)
    ensures r == Outcome(if key in fetched.payload.pages then fetched.payload.pages[key] else "", None)
  {
    var pages := fetched.payload.pages;
    if key in pages {
      assert pages.Values == {pages[key]} by {
        forall v | v in pages.Values ensures v == pages[key] {
          var k :| k in pages && pages[k] == v;
        }
      }
    } else {
      assert pages == map[];
    }
  }
}
