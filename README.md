# wea: weather and Wikipedia summary for a city, modelled in Dafny

The service answers `GET /city-information?name=<city>`. It asks OpenWeather
for the current weather and Wikipedia for the article's introduction, both
concurrently and for the same name. When both succeed it joins the two into
one record: the temperature in degrees Celsius, the weather description and
the location description. When either fails it forwards one error, the weather
error taking precedence. The handler maps that error to 404 (not found), to no
response at all (the request was canceled) or to 500 with a generic message.

The model follows the program's packages, one module per file:

- `Errors` (`errors.dfy`): the errors themselves (the two not-found sentinels, `context.Canceled`,
  `util.HTTPError`, other errors and `%w` wrapping), their messages, and
  `errors.Is` / `errors.As` as functions over the chain of wraps.
- `Http` (`http.dfy`): a request, what `util.GetJSON` comes back with, and `url.Values.Get`.
- `Units` (`units.dfy`): `util.Round` and `Temperature.Celsius`, computed on exact reals.
- `OpenWeather` (`openweather.dfy`) and `Wiki` (`wiki.dfy`): the requests the two clients send,
  and how each turns the `GetJSON` outcome into its answer or its error. The
  Wikipedia client iterates over a Go map and stops after the first page, so it
  is a method that chooses a page nondeterministically. `Wiki.Possible` is the
  set of answers it may give.
- `Service` (`service.dfy`): the providers (a `Client` class holding what the provider
  answers and the log of calls made to it), the pure join `Join`, and the class
  `Wea` whose method calls both providers in an order the scheduler picks.
- `Handler` (`handler.dfy`): a recording `http.ResponseWriter` (`Recorder`). Beside it are the
  writers `writeError`, `writeInternalError` and `writeResponse`, the request
  handler `cityInformation`, the pure decision `Respond`, and end-to-end lemmas
  that run from the providers' HTTP outcome to the response the client gets.

Go's `(value, error)` result pairs are `Errors.Outcome<T>`, with `Option` for
nil. I/O has no place in the model. Performing the HTTP requests, decoding JSON,
logging and routing are all replaced by their outcomes, which the model takes
as inputs: the `get` function standing for `GetJSON`, a provider's `respond`
function, and the `EncodeOutcome` of the JSON encoder.

## Model

| member | source | states |
|---|---|---|
| `Errors.StatusText` | pkg/util/http.go:19-21 | `http.StatusText` names the error statuses the providers answer with, 404 as "Not Found", and nothing outside the 4xx and 5xx ranges |
| `Errors.Message` | pkg/util/http.go:19-21 | `err.Error()`: a sentinel gives its fixed text, a `%w` wrap starts with its annotation and ": ", and an HTTPError ends with its response body |
| `Errors.Is` | pkg/handler/handler.go:51-56 | `errors.Is`: every error matches itself, and an error that wraps nothing matches only itself |
| `Errors.Cause` | pkg/handler/handler.go:51-56 | the error at the bottom of a `%w` chain wraps nothing, and `errors.Is` matches it |
| `Errors.IsUnwrappedIffCause` | pkg/handler/handler.go:51-56 | against a target that wraps nothing (every sentinel), `errors.Is` holds exactly when that target is the chain's cause |
| `Errors.MatchesAtMostOneUnwrapped` | pkg/handler/handler.go:51-56 | one error chain never matches two different sentinels |
| `Errors.AsHTTPError` | pkg/clients/openweather/openweather.go:56-57 | `errors.As(err, &httperr)` finds an HTTPError exactly when the chain's cause is one, and yields that cause's status |
| `Errors.WrappedIs` | pkg/clients/openweather/openweather.go:60 | an error wrapped with `%w` still matches everything the original did, and adds only itself |
| `Http.QueryGet` | pkg/handler/handler.go:43 | `Query().Get(name)` is the parameter's first value, or "" when the parameter is absent or has no value |
| `Units.Pow10` | pkg/util/math.go:7 | `math.Pow10` of a non-negative exponent is at least 1 |
| `Units.RoundHalfAway` | pkg/util/math.go:8 | `math.Round` gives the nearest integer, and halves go away from zero |
| `Units.RoundHalfAwayOdd` | pkg/util/math.go:8 | the rounding is symmetric around zero |
| `Units.Round` | pkg/util/math.go:5-9 | scaled by 10^precision, the rounded value is exactly the whole number `math.Round` gives for the scaled input, so it keeps `precision` digits; and it moves the value by at most half a unit of the last digit |
| `Units.RoundIdempotent` | pkg/util/math.go:5-9 | rounding an already rounded value to the same precision leaves it unchanged |
| `Units.Celsius` | pkg/types/types.go:12-14 | the display temperature is a whole number of hundredths: Kelvin minus 273.15, scaled by 100 and rounded half away from zero, so within 0.005 of the exact value |
| `Units.Celsius300` | pkg/types/types.go:12-14 | 300 K reads as 26.85 degrees |
| `OpenWeather.SituationRequest` | pkg/clients/openweather/openweather.go:52-55 | the weather request goes to the current-weather endpoint and carries exactly `q` = the location name and `appid` = the API key |
| `OpenWeather.CurrentSituation` | pkg/clients/openweather/openweather.go:50-67 | the client's answer is decided by what the API answered to the request for this location name and key: a situation exactly when that fetch succeeded, holding its `main.temp` and first description; otherwise the 404 sentinel or the wrapped failure, and no situation |
| `OpenWeather.SituationOf` | pkg/clients/openweather/openweather.go:55-67 | a 404 becomes exactly `ErrLocationNotFound`; any other failure becomes the failure wrapped as "get current weather"; there is a situation exactly when there is no error; on success the temperature is `main.temp` unconverted and the description is the first weather entry's |
| `OpenWeather.SituationErrorKinds` | pkg/clients/openweather/openweather.go:56-60 | the client's error is a cancellation exactly when the transport failure was one; it is location-not-found exactly when the answer was a 404 or the failure already matched that sentinel |
| `Wiki.ExtractRequest` | pkg/clients/wiki/wiki.go:40-46 | the article request carries `titles` = the topic and the fixed `action=query`, `prop=extracts`, `exintro=true`, `explaintext=true` and `format=json`, and nothing else |
| `Wiki.SimpleExtract` | pkg/clients/wiki/wiki.go:38-62 | the answer is one the API's answer to the request for this title allows: a transport failure gives ("", failure wrapped as "get wiki extract"); a `"-1"` page gives ("", `ErrEntryNotFound`) whatever other pages there are; otherwise no error, and the extract of some page, or "" when there are no pages |
| `Wiki.ErrorMeansEmpty` | pkg/clients/wiki/wiki.go:47-53 | whenever the client returns an error its extract is empty |
| `Wiki.SimpleExtractErrorKinds` | pkg/clients/wiki/wiki.go:47-53 | there is an error exactly when the fetch failed or a `"-1"` page is present; it is entry-not-found exactly when that page is present (or the failure was already not-found); it is a cancellation exactly when the failure was one |
| `Wiki.SinglePageDeterministic` | pkg/clients/wiki/wiki.go:55-61 | with at most one page the answer no longer depends on map order: that page's extract, or "" for none |
| `Service.Client.constructor` | pkg/clients/openweather/openweather.go:21-24 | a provider starts with an empty call log |
| `Service.Client.Invoke` | pkg/service/service.go:49 | a provider call returns the provider's answer and appends exactly one call to its log |
| `Service.Join` | pkg/service/service.go:60-71 | a weather error is returned as it is; otherwise the Wikipedia error; a record exists exactly when neither failed, and then holds the Celsius temperature, the weather description and the location description unchanged |
| `Service.WeatherErrorWins` | pkg/service/service.go:60-62 | with a weather error the result is that error and no record, whatever the Wikipedia lookup returned |
| `Service.ErrorIsForwarded` | pkg/service/service.go:60-65 | a returned error is one of the two providers' own errors; there is no error exactly when both providers succeeded |
| `Service.CancellationPropagates` | pkg/service/service.go:60-65 | when both providers report cancellation the service does too, and builds no record |
| `Service.Wea.constructor` | pkg/service/service.go:17-22 | the service holds the two given providers |
| `Service.Wea.LocationDescriptionWithWeather` | pkg/service/service.go:37-72 | each provider is called exactly once with the same context and name, both calls finish before either answer is read, and the result is `Join` of the two answers whatever order the calls complete in |
| `Handler.Recorder.constructor` | pkg/handler/handler.go:42 | a fresh writer has no header, no status and no body |
| `Handler.Recorder.SetHeader` | pkg/handler/handler.go:73 | setting a header changes only that header |
| `Handler.Recorder.WriteHeader` | pkg/handler/handler.go:98 | only the first status takes effect and fixes the header sent; every call is counted |
| `Handler.Recorder.Write` | pkg/handler/handler.go:99 | a body write appends to the body; the first one without a status sends 200 with the current header |
| `Handler.IsNotFound` | pkg/handler/handler.go:51 | the 404 condition holds exactly when one of the two not-found sentinels is at the bottom of the error's chain of wraps |
| `Handler.NotFoundExcludesCanceled` | pkg/handler/handler.go:51-58 | no error is both not-found and canceled, so checking not-found before canceled changes nothing |
| `Handler.Respond` | pkg/handler/handler.go:49-69 | 404 exactly for not-found errors, carrying the error's own message; nothing at all exactly for canceled errors; 500 with the generic message for every other error, or when the success body cannot be marshalled; 200 exactly on a success whose body marshals, carrying the location description, the weather description and the temperature, followed by the generic error body only when writing the success body failed; every written response has the JSON content type |
| `Handler.WriteError` | pkg/handler/handler.go:89-103 | sets the JSON content type, then writes the status, then the body `{"error": message}` |
| `Handler.WriteInternalError` | pkg/handler/handler.go:80-82 | writes a 500 whose error is the generic message |
| `Handler.WriteResponse` | pkg/handler/handler.go:72-78 | sets the JSON content type and writes the body with status 200; a marshalling failure makes it a 500 with the generic message instead; a failed write keeps the 200 already sent and adds a superfluous status call and the generic error body |
| `Handler.CityInformation` | pkg/handler/handler.go:42-70 | an empty or missing name gets 400 with `ErrNoCityNameProvided` and the providers are not called; otherwise the client receives `Respond` of the service's answer; one status takes effect (none on cancellation), and `WriteHeader` is called once per body write, at most twice |
| `Handler.UnknownLocationIsNotFound` | pkg/handler/handler.go:51-54 | a 404 from the weather API reaches the client as 404 "location not found", whatever the Wikipedia lookup did |
| `Handler.UnknownArticleIsNotFound` | pkg/handler/handler.go:51-54 | with the weather known, a missing article reaches the client as 404 "wikipedia entry not found" |
| `Handler.CanceledWeatherIsSilent` | pkg/handler/handler.go:56-58 | a weather call canceled in transport leaves the response unwritten, whatever the Wikipedia lookup did |
| `Handler.CanceledArticleIsSilent` | pkg/handler/handler.go:56-58 | with the weather known, an article call canceled in transport leaves the response unwritten |
| `Handler.WeatherFailureIsInternal` | pkg/handler/handler.go:60 | any other weather failure reaches the client as 500 with the generic message, never its own |
| `Handler.BothFoundIsOK` | pkg/handler/handler.go:65-69 | when both lookups succeed the client gets 200 with the converted temperature, the first weather description and a page's extract |

## Left out

- Floating point: temperatures are exact reals. `float64` rounding error, and an overflow of `n * 100` to infinity that would make JSON marshalling fail, are not modelled. How encoding the success body ends is the `EncodeOutcome` input instead.
- `Units.Round`: the precision is a natural number; `util.Round` also accepts a negative precision, which the service never passes.
- `OpenWeather.CurrentSituation` (and `OpenWeather.SituationOf`): requires at least one weather entry in a successful answer. The source indexes `Weather[0]` without a guard and would panic on an empty list.
- `Service.Wea.LocationDescriptionWithWeather`: requires a well-formed weather answer (a nil error comes with a situation). With a provider that broke this, the source would dereference nil.
- Concurrency: the two goroutines and the `sync.WaitGroup` become two sequential calls in a nondeterministically chosen order. Each goroutine writes only its own variables and both are joined before any is read, so nothing else is lost.
- Context cancellation mechanics: a context is a token passed unchanged to both providers. Cancellation appears only as the `Canceled` error a provider may return.
- `util.GetJSON`: performing the request, reading the body, the non-2xx check and JSON unmarshalling are not modelled. Its result is an input (`Http.Fetch`). Query encoding (`url.Values.Encode`) is not modelled either.
- `Errors.StatusText`: it covers only the common statuses listed in `errors.dfy` and is "" for the rest. It only shapes the message of an HTTPError, which never reaches the client.
- `errors.Is` compares errors structurally. In Go, two errors created separately with the same text are different values. Every comparison the source makes is against a sentinel, so this never changes an outcome.
- `Handler.CityInformation`: takes the parsed query map. Parsing `r.URL.Query()` from the request URL is not modelled.
- `Handler.Recorder.Write`: the body records every write the handler makes. Whether the bytes of a failed write reach the client is not modelled.
- `Handler.CityInformation`: the model records only what the handler writes. When it writes nothing (cancellation), `net/http` itself may still finish the response.
- Logging (zap), routing (httprouter), the JSON encoding of bodies (a body is the value that would be encoded) and the process wiring in `cmd/wea/wea.go` are not modelled.
