/**
 * The HTTP handler (`handler.cityInformation` and its writers): turn the
 * `name` query parameter and the service's answer into exactly one response.
 * Routing, logging and the JSON encoding of bodies are not modelled; a body
 * is the value that would be encoded.
 */
module Handler {
  import opened Wrappers
  import opened Errors
  import opened Http
  import OpenWeather
  import Wiki
  import opened Service
  import Units

  const ErrInternal := "internal server error"
  const ErrNoCityNameProvided := "required parameter 'name' isn`t provided"
  const NameParam := "name"
  const ContentType := "Content-Type"
  const JsonMediaType := "application/json"

  const StatusOK := 200
  const StatusBadRequest := 400
  const StatusNotFound := 404
  const StatusInternalServerError := 500

  /** The JSON body of a successful request. */
  datatype CityInformationResponse = CityInformationResponse(
    description: string,
    weatherSituation: string,
    temperature: real)

  /** A value written to the response body: `{"error": ...}`, or the city information. */
  datatype Payload = ErrorBody(error: string) | CityBody(info: CityInformationResponse)

  /**
   * How `json.NewEncoder(w).Encode(resp)` ends: it marshals the body first,
   * which fails for values JSON cannot represent, and then writes it to the
   * writer in one call, which fails when the connection is gone.
   */
  datatype EncodeOutcome = Encoded | UnsupportedValue | WriteFailed

  /**
   * What reaches the client: the header as it stood when the status was
   * written, the status (None when none was written) and the body writes.
   */
  datatype Response = Response(header: map<string, string>, status: Option<int>, body: seq<Payload>)

  /** An `http.ResponseWriter` that records what the handler does to it. */
  class Recorder {
    var header: map<string, string>
    var status: Option<int>
    var sentHeader: map<string, string>
    var body: seq<Payload>
    /** Every call of `WriteHeader`, the implicit one made by a first `Write` included. */
    ghost var writeHeaderCalls: nat

    ghost predicate Valid()
      reads this
    {
      (status.None? ==> body == [] && sentHeader == map[] && writeHeaderCalls == 0) &&
      (status.Some? ==> writeHeaderCalls >= 1)
    }

    /** The response as the client receives it. */
    function Sent(): (r: Response)
      reads this
    {
      Response(sentHeader, status, body)
    }

    constructor ()
      ensures Valid() && header == map[] && status == None && body == []
    {
      header, status, sentHeader, body := map[], None, map[], [];
      writeHeaderCalls := 0;
    }

    /** `w.Header().Set(key, value)`. */
    method SetHeader(key: string, value: string)
      requires Valid()
      modifies this
      ensures Valid()
      ensures header == old(header)[key := value]
      ensures status == old(status) && sentHeader == old(sentHeader) && body == old(body)
      ensures writeHeaderCalls == old(writeHeaderCalls)
    {
      header := header[key := value];
    }

    /** `w.WriteHeader(code)`: only the first call takes effect, and fixes the header sent. */
    method WriteHeader(code: int)
      requires Valid()
      modifies this
      ensures Valid()
      ensures writeHeaderCalls == old(writeHeaderCalls) + 1
      ensures old(status).None? ==> status == Some(code) && sentHeader == header
      ensures old(status).Some? ==> status == old(status) && sentHeader == old(sentHeader)
      ensures header == old(header) && body == old(body)
    {
      if status.None? {
        status := Some(code);
        sentHeader := header;
      }
      writeHeaderCalls := writeHeaderCalls + 1;
    }

    /**
     * `w.Write(p)`: a first write without a status sends 200 first.  The body
     * records every write made, whether or not its bytes reach the client.
     */
    method Write(p: Payload)
      requires Valid()
      modifies this
      ensures Valid()
      ensures body == old(body) + [p]
      ensures old(status).None? ==>
                status == Some(StatusOK) && sentHeader == header && writeHeaderCalls == 1
      ensures old(status).Some? ==>
                status == old(status) && sentHeader == old(sentHeader) &&
                writeHeaderCalls == old(writeHeaderCalls)
      ensures header == old(header)
    {
      if status.None? {
        WriteHeader(StatusOK);
      }
      body := body + [p];
    }
  }

  /** An error response: JSON content type, the status, and `{"error": message}`. */
  function ErrorResponse(code: int, message: string): (r: Response) {
    Response(map[ContentType := JsonMediaType], Some(code), [ErrorBody(message)])
  }

  /** No status and no body: the handler wrote nothing. */
  const Silent := Response(map[], None, [])

  /**
   * The condition of the 404 branch: the error names a location or article
   * that does not exist, i.e. one of the two not-found sentinels is at the
   * bottom of its chain of wraps.
   */
  predicate IsNotFound(e: Err): (b: bool)
    ensures b <==> Cause(e) == EntryNotFound || Cause(e) == LocationNotFound
  {
    IsUnwrappedIffCause(e, EntryNotFound);
    IsUnwrappedIffCause(e, LocationNotFound);
    Is(e, EntryNotFound) || Is(e, LocationNotFound)
  }

  /** An error chain is never both not-found and canceled, so the order of the two checks is immaterial. */
  lemma NotFoundExcludesCanceled(e: Err)
    ensures !(IsNotFound(e) && Is(e, Canceled))
  {
    if Is(e, Canceled) {
      if Is(e, EntryNotFound) {
        MatchesAtMostOneUnwrapped(e, Canceled, EntryNotFound);
      }
      if Is(e, LocationNotFound) {
        MatchesAtMostOneUnwrapped(e, Canceled, LocationNotFound);
      }
    }
  }

  /**
   * `cityInformation` once the service has answered a non-empty name: what
   * the client receives.  `enc` is how encoding the success body ends.
   */
  function Respond(outcome: Outcome<Option<LocationDescriptionWithWeather>>, enc: EncodeOutcome): (r: Response)
    requires outcome.err.None? ==> outcome.value.Some?
    ensures r.status == Some(StatusNotFound) <==> outcome.err.Some? && IsNotFound(outcome.err.value)
    ensures r.status.None? <==> outcome.err.Some? && !IsNotFound(outcome.err.value) && Is(outcome.err.value, Canceled)
    ensures r.status == Some(StatusOK) <==> outcome.err.None? && !enc.UnsupportedValue?
    ensures r.status == Some(StatusInternalServerError) <==>
              (outcome.err.Some? && !IsNotFound(outcome.err.value) && !Is(outcome.err.value, Canceled)) ||
              (outcome.err.None? && enc.UnsupportedValue?)
    ensures r.status.None? ==> r == Silent
    ensures r.status.Some? ==> r.header == map[ContentType := JsonMediaType] && |r.body| >= 1
    ensures |r.body| == 2 <==> outcome.err.None? && enc.WriteFailed?
    ensures r.status == Some(StatusNotFound) ==> r.body == [ErrorBody(Message(outcome.err.value))]
    ensures r.status == Some(StatusInternalServerError) ==> r.body == [ErrorBody(ErrInternal)]
    ensures r.status == Some(StatusOK) ==>
              var record := outcome.value.value;
              r.body[0] == CityBody(CityInformationResponse(
                record.locationDescription, record.weatherDescription, record.temperatureCelsius)) &&
              r.body[1..] == if enc.WriteFailed? then [ErrorBody(ErrInternal)] else []
  {
    if outcome.err.Some? then
      var e := outcome.err.value;
      if IsNotFound(e) then ErrorResponse(StatusNotFound, Message(e))
      else if Is(e, Canceled) then Silent
      else ErrorResponse(StatusInternalServerError, ErrInternal)
    else
      var record := outcome.value.value;
      var city := CityBody(CityInformationResponse(
        record.locationDescription, record.weatherDescription, record.temperatureCelsius));
      match enc
      case Encoded => Response(map[ContentType := JsonMediaType], Some(StatusOK), [city])
      case UnsupportedValue => ErrorResponse(StatusInternalServerError, ErrInternal)
      case WriteFailed =>
        // the 200 went out with the first write; the fallback's WriteHeader(500) is superfluous
        Response(map[ContentType := JsonMediaType], Some(StatusOK), [city, ErrorBody(ErrInternal)])
  }

  /** `writeError`. Marshalling `{"error": message}` cannot fail, and a failed write is only logged. */
  method WriteError(w: Recorder, statusCode: int, message: string)
    requires w.Valid()
    modifies w
    ensures w.Valid()
    ensures w.header == old(w.header)[ContentType := JsonMediaType]
    ensures w.body == old(w.body) + [ErrorBody(message)]
    ensures w.writeHeaderCalls == old(w.writeHeaderCalls) + 1
    ensures old(w.status).None? ==> w.status == Some(statusCode) && w.sentHeader == w.header
    ensures old(w.status).Some? ==> w.status == old(w.status) && w.sentHeader == old(w.sentHeader)
  {
    w.SetHeader(ContentType, JsonMediaType);
    w.WriteHeader(statusCode);
    w.Write(ErrorBody(message));
  }

  /** `writeInternalError`: the generic message, never the error's own. */
  method WriteInternalError(w: Recorder)
    requires w.Valid()
    modifies w
    ensures w.Valid()
    ensures w.header == old(w.header)[ContentType := JsonMediaType]
    ensures w.body == old(w.body) + [ErrorBody(ErrInternal)]
    ensures w.writeHeaderCalls == old(w.writeHeaderCalls) + 1
    ensures old(w.status).None? ==> w.status == Some(StatusInternalServerError) && w.sentHeader == w.header
    ensures old(w.status).Some? ==> w.status == old(w.status) && w.sentHeader == old(w.sentHeader)
  {
    WriteError(w, StatusInternalServerError, ErrInternal);
  }

  /**
   * `writeResponse`: set the content type, then encode the body into the
   * writer.  When marshalling fails nothing has been written and the
   * internal error is the response; when the write fails the 200 and the body
   * have already gone out, and the fallback only adds a superfluous status
   * and a second body.
   */
  method WriteResponse(w: Recorder, resp: CityInformationResponse, enc: EncodeOutcome)
    requires w.Valid()
    modifies w
    ensures w.Valid()
    ensures w.header == old(w.header)[ContentType := JsonMediaType]
    ensures enc.Encoded? ==> w.body == old(w.body) + [CityBody(resp)]
    ensures enc.UnsupportedValue? ==> w.body == old(w.body) + [ErrorBody(ErrInternal)]
    ensures enc.WriteFailed? ==> w.body == old(w.body) + [CityBody(resp), ErrorBody(ErrInternal)]
    ensures old(w.status).None? ==>
              w.status == Some(if enc.UnsupportedValue? then StatusInternalServerError else StatusOK) &&
              w.sentHeader == w.header &&
              w.writeHeaderCalls == if enc.WriteFailed? then 2 else 1
    ensures old(w.status).Some? ==>
              w.status == old(w.status) && w.sentHeader == old(w.sentHeader) &&
              w.writeHeaderCalls == old(w.writeHeaderCalls) + if enc.Encoded? then 0 else 1
  {
    w.SetHeader(ContentType, JsonMediaType);
    match enc {
      case Encoded =>
        w.Write(CityBody(resp));
      case UnsupportedValue =>
        WriteInternalError(w);
      case WriteFailed =>
        w.Write(CityBody(resp));
        WriteInternalError(w);
    }
  }

  /**
   * `cityInformation` on a fresh writer: a missing name is answered with 400
   * without asking the service; otherwise the service's answer is turned
   * into the response `Respond` describes.  One status takes effect, unless
   * the request was canceled, when nothing is written; each body write comes
   * with one `WriteHeader` call, so a second call happens only when writing
   * the success body failed.
   */
  method CityInformation(w: Recorder, wea: Wea, ctx: Context, query: Query, enc: EncodeOutcome)
    requires w.Valid() && w.status.None? && w.header == map[]
    requires QueryGet(query, NameParam) != "" ==> WellFormed(wea.ow.respond(ctx, QueryGet(query, NameParam)))
    modifies w, wea.ow, wea.wiki
    ensures w.Valid()
    ensures w.writeHeaderCalls == |w.body| <= 2
    ensures QueryGet(query, NameParam) == "" ==>
              w.Sent() == ErrorResponse(StatusBadRequest, ErrNoCityNameProvided) &&
              wea.ow.calls == old(wea.ow.calls) && wea.wiki.calls == old(wea.wiki.calls)
    ensures QueryGet(query, NameParam) != "" ==>
              var name := QueryGet(query, NameParam);
              w.Sent() == Respond(Join(wea.ow.respond(ctx, name), wea.wiki.respond(ctx, name)), enc) &&
              wea.ow.calls == old(wea.ow.calls) + [Call(ctx, name)] &&
              wea.wiki.calls == old(wea.wiki.calls) + [Call(ctx, name)]
  {
    var cityName := QueryGet(query, NameParam);
    if cityName == "" {
      WriteError(w, StatusBadRequest, ErrNoCityNameProvided);
      return;
    }

    var outcome := wea.LocationDescriptionWithWeather(ctx, cityName);
    if outcome.err.Some? {
      var err := outcome.err.value;
      if IsNotFound(err) {
        WriteError(w, StatusNotFound, Message(err));
        return;
      }
      if Is(err, Canceled) {
        return;
      }
      WriteInternalError(w);
      return;
    }

    var sit := outcome.value.value;
    WriteResponse(w, CityInformationResponse(sit.locationDescription, sit.weatherDescription, sit.temperatureCelsius), enc);
  }

  // End to end: what the client receives for what the providers' HTTP calls came back with.

  /** The weather API's 404 is a 404 "location not found", whatever the Wikipedia lookup did. */
  lemma UnknownLocationIsNotFound(weather: Fetch<OpenWeather.WeatherResponse>, description: Outcome<string>, enc: EncodeOutcome)
    requires weather.Failed? && AsHTTPError(weather.err) == Some(OpenWeather.StatusNotFound)
    ensures Respond(Join(OpenWeather.SituationOf(weather), description), enc) ==
              ErrorResponse(StatusNotFound, LocationNotFoundText)
  {
  }

  /** With the weather known, an unknown article is a 404 "wikipedia entry not found". */
  lemma UnknownArticleIsNotFound(
    weather: Fetch<OpenWeather.WeatherResponse>, article: Fetch<Wiki.ExtractResponse>,
    description: Outcome<string>, enc: EncodeOutcome)
    requires weather.Fetched? && |weather.payload.descriptions| > 0
    requires article.Fetched? && Wiki.MissingPageKey in article.payload.pages
    requires Wiki.Possible(article, description)
    ensures Respond(Join(OpenWeather.SituationOf(weather), description), enc) ==
              ErrorResponse(StatusNotFound, EntryNotFoundText)
  {
  }

  /** A weather lookup canceled in transport leaves the response unwritten, whatever the Wikipedia lookup did. */
  lemma CanceledWeatherIsSilent(weather: Fetch<OpenWeather.WeatherResponse>, description: Outcome<string>, enc: EncodeOutcome)
    requires weather.Failed? && Is(weather.err, Canceled)
    ensures Respond(Join(OpenWeather.SituationOf(weather), description), enc) == Silent
  {
    OpenWeather.SituationErrorKinds(weather);
    NotFoundExcludesCanceled(OpenWeather.SituationOf(weather).err.value);
  }

  /** With the weather known, an article lookup canceled in transport leaves the response unwritten. */
  lemma CanceledArticleIsSilent(
    weather: Fetch<OpenWeather.WeatherResponse>, article: Fetch<Wiki.ExtractResponse>,
    description: Outcome<string>, enc: EncodeOutcome)
    requires weather.Fetched? && |weather.payload.descriptions| > 0
    requires article.Failed? && Is(article.err, Canceled)
    requires Wiki.Possible(article, description)
    ensures Respond(Join(OpenWeather.SituationOf(weather), description), enc) == Silent
  {
    Wiki.SimpleExtractErrorKinds(article, description);
    NotFoundExcludesCanceled(description.err.value);
  }

  /**
   * A weather lookup that failed for any reason other than a 404,
   * cancellation or a not-found error is a 500 with the generic message.
   */
  lemma WeatherFailureIsInternal(weather: Fetch<OpenWeather.WeatherResponse>, description: Outcome<string>, enc: EncodeOutcome)
    requires weather.Failed? && AsHTTPError(weather.err) != Some(OpenWeather.StatusNotFound)
    requires !IsSentinel(Cause(weather.err))
    ensures Respond(Join(OpenWeather.SituationOf(weather), description), enc) ==
              ErrorResponse(StatusInternalServerError, ErrInternal)
  {
    OpenWeather.SituationErrorKinds(weather);
    IsUnwrappedIffCause(weather.err, Canceled);
    IsUnwrappedIffCause(weather.err, LocationNotFound);
    IsUnwrappedIffCause(weather.err, EntryNotFound);
  }

  /** Both lookups succeeding is a 200 carrying the converted temperature and both descriptions unchanged. */
  lemma BothFoundIsOK(
    weather: Fetch<OpenWeather.WeatherResponse>, article: Fetch<Wiki.ExtractResponse>,
    description: Outcome<string>)
    requires weather.Fetched? && |weather.payload.descriptions| > 0
    requires article.Fetched? && Wiki.MissingPageKey !in article.payload.pages
    requires Wiki.Possible(article, description)
    ensures Respond(Join(OpenWeather.SituationOf(weather), description), Encoded) ==
              Response(map[ContentType := JsonMediaType], Some(StatusOK), [CityBody(CityInformationResponse(
                description.value, weather.payload.descriptions[0], Units.Celsius(weather.payload.temp)))])
    ensures description.value == "" || description.value in article.payload.pages.Values
  {
  }
}
