/**
 * The OpenWeather client (`openweather.CurrentSituation`): the request it
 * sends, and how it turns what `GetJSON` leaves behind into a weather
 * situation or an error.
 */
module OpenWeather {
  import opened Wrappers
  import opened Errors
  import opened Http

  const Endpoint := "https://api.openweathermap.org/data/2.5/weather"
  const ErrorPrefix := "get current weather"
  const StatusNotFound := 404

  /** The part of the JSON answer the client reads: each `weather[i].description`, and `main.temp`. */
  datatype WeatherResponse = WeatherResponse(descriptions: seq<string>, temp: real)

  /** A current weather situation; the temperature is in Kelvin. */
  datatype WeatherSituation = WeatherSituation(temperature: real, description: string)

  /** The request for the current weather at `locationName`, authorised by `apiKey`. */
  function SituationRequest(apiKey: string, locationName: string): (r: Request)
    ensures r.url == Endpoint
    ensures r.query.Keys == {"q", "appid"}
    ensures r.query["q"] == [locationName] && r.query["appid"] == [apiKey]
    ensures QueryGet(r.query, "q") == locationName && QueryGet(r.query, "appid") == apiKey
  {
    Request(Endpoint, map["q" := [locationName], "appid" := [apiKey]])
  }

  /**
   * `CurrentSituation(ctx, locationName)` of the client holding `apiKey`:
   * `get` is `GetJSON`, the API's answer to a request.  The client asks for
   * the location by name with its key, and answers with what the API said
   * about that request.
   */
  function CurrentSituation(apiKey: string, locationName: string, get: Request -> Fetch<WeatherResponse>)
    : (r: Outcome<Option<WeatherSituation>>)
    requires get(SituationRequest(apiKey, locationName)).Fetched? ==>
               |get(SituationRequest(apiKey, locationName)).payload.descriptions| > 0
    ensures var fetched := get(SituationRequest(apiKey, locationName));
              (r.err.None? <==> fetched.Fetched?) &&
              (fetched.Fetched? ==>
                 r.value == Some(WeatherSituation(fetched.payload.temp, fetched.payload.descriptions[0]))) &&
              (fetched.Failed? ==>
                 r.value == None &&
                 r.err == Some(if AsHTTPError(fetched.err) == Some(StatusNotFound) then LocationNotFound
                               else Wrapped(ErrorPrefix, fetched.err)))
  {
    SituationOf(get(SituationRequest(apiKey, locationName)))
  }

  /**
   * The client's answer once `GetJSON` has returned.  A 404 becomes the
   * sentinel; any other failure is annotated, keeping the failure as its
   * cause.  The answer must list at least one weather condition: the source
   * reads the first one without checking.
   */
  function SituationOf(fetched: Fetch<WeatherResponse>): (r: Outcome<Option<WeatherSituation>>)
    requires fetched.Fetched? ==> |fetched.payload.descriptions| > 0
    ensures r.value.Some? <==> r.err.None?
    ensures r.err.None? <==> fetched.Fetched?
    ensures r.err == Some(LocationNotFound) <==> fetched.Failed? && AsHTTPError(fetched.err) == Some(StatusNotFound)
    ensures fetched.Failed? && AsHTTPError(fetched.err) != Some(StatusNotFound) ==>
              r.err == Some(Wrapped(ErrorPrefix, fetched.err))
    ensures fetched.Fetched? ==>
              r.value.value.temperature == fetched.payload.temp &&
              r.value.value.description == fetched.payload.descriptions[0]
  {
    match fetched
    case Failed(e) =>
      if AsHTTPError(e) == Some(StatusNotFound) then Outcome(None, Some(LocationNotFound))
      else Outcome(None, Some(Wrapped(ErrorPrefix, e)))
    case Fetched(resp) =>
      Outcome(Some(WeatherSituation(resp.temp, resp.descriptions[0])), None)
  }

  /**
   * How the client's error classifies: it is a cancellation exactly when the
   * failure was, and a missing location exactly when the answer was a 404 or
   * the failure already was one.
   */
  lemma SituationErrorKinds(fetched: Fetch<WeatherResponse>)
    requires fetched.Failed?
    ensures SituationOf(fetched).err.Some?
    ensures Is(SituationOf(fetched).err.value, Canceled) <==> Is(fetched.err, Canceled)
    ensures Is(SituationOf(fetched).err.value, LocationNotFound) <==>
              (AsHTTPError(fetched.err) == Some(StatusNotFound) || Is(fetched.err, LocationNotFound))
    ensures Is(SituationOf(fetched).err.value, EntryNotFound) <==> Is(fetched.err, EntryNotFound)
  {
    var e := fetched.err;
    IsUnwrappedIffCause(e, Canceled);
    IsUnwrappedIffCause(e, LocationNotFound);
    IsUnwrappedIffCause(e, EntryNotFound);
  }
}
