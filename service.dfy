/**
 * The application logic (`service.defaultWea`): ask both providers about the
 * same location, wait for both, and join their answers under a fixed error
 * precedence: the weather error first, then the Wikipedia error.
 */
module Service {
  import opened Wrappers
  import opened Errors
  import Units
  import opened OpenWeather

  /** A request's `context.Context`: a token handed unchanged to both providers. */
  datatype Context = Context(id: nat)

  /** One invocation of a provider. */
  datatype Call = Call(ctx: Context, name: string)

  /** The location description joined with its weather situation. */
  datatype LocationDescriptionWithWeather = LocationDescriptionWithWeather(
    temperatureCelsius: real,
    weatherDescription: string,
    locationDescription: string)

  /**
   * A provider (`openweather.Client` or `wiki.Client`): what it answers for a
   * context and a name, and the log of the calls made to it.
   */
  class Client<T> {
    const respond: (Context, string) -> Outcome<T>
    var calls: seq<Call>

    constructor (respond: (Context, string) -> Outcome<T>)
      ensures this.respond == respond && calls == []
    {
      this.respond := respond;
      calls := [];
    }

    method Invoke(ctx: Context, name: string) returns (r: Outcome<T>)
      modifies this
      ensures r == respond(ctx, name)
      ensures calls == old(calls) + [Call(ctx, name)]
    {
      r := respond(ctx, name);
      calls := calls + [Call(ctx, name)];
    }
  }

  /** A weather answer the service can use: a nil error comes with a situation. */
  predicate WellFormed(weather: Outcome<Option<WeatherSituation>>) {
    weather.err.None? ==> weather.value.Some?
  }

  /** A provider answer that reports cancellation. */
  predicate IsCanceled<T>(o: Outcome<T>) {
    o.err.Some? && Is(o.err.value, Canceled)
  }

  /**
   * The join after both goroutines are done in `LocationDescriptionWithWeather`:
   * the first error in precedence order is forwarded as it is, and a record
   * exists only when neither provider failed.
   */
  function Join(weather: Outcome<Option<WeatherSituation>>, description: Outcome<string>)
    : (r: Outcome<Option<LocationDescriptionWithWeather>>)
    requires WellFormed(weather)
    ensures weather.err.Some? ==> r.err == weather.err
    ensures weather.err.None? ==> r.err == description.err
    ensures r.value.Some? <==> r.err.None?
    ensures r.value.Some? ==>
              var situation := weather.value.value;
              r.value.value.temperatureCelsius == Units.Celsius(situation.temperature) &&
              r.value.value.weatherDescription == situation.description &&
              r.value.value.locationDescription == description.value
  {
    if weather.err.Some? then Outcome(None, weather.err)
    else if description.err.Some? then Outcome(None, description.err)
    else
      var situation := weather.value.value;
      Outcome(Some(LocationDescriptionWithWeather(
        Units.Celsius(situation.temperature), situation.description, description.value)), None)
  }

  /** A weather error wins whatever the Wikipedia lookup did, and whatever value came with it. */
  lemma WeatherErrorWins(weather: Outcome<Option<WeatherSituation>>, d1: Outcome<string>, d2: Outcome<string>)
    requires weather.err.Some?
    ensures Join(weather, d1) == Join(weather, d2) == Outcome(None, weather.err)
  {
  }

  /** The error returned is one of the providers' own errors, never a new one. */
  lemma ErrorIsForwarded(weather: Outcome<Option<WeatherSituation>>, description: Outcome<string>)
    requires WellFormed(weather)
    ensures Join(weather, description).err.Some? ==>
              Join(weather, description).err == weather.err || Join(weather, description).err == description.err
    ensures Join(weather, description).err.None? <==> weather.err.None? && description.err.None?
  {
  }

  /** When both providers report cancellation, so does the service, and it builds no record. */
  lemma CancellationPropagates(weather: Outcome<Option<WeatherSituation>>, description: Outcome<string>)
    requires WellFormed(weather)
    requires IsCanceled(weather) && IsCanceled(description)
    ensures IsCanceled(Join(weather, description))
    ensures Join(weather, description).value.None?
  {
  }

  /** The service logic over its two providers. */
  class Wea {
    const ow: Client<Option<WeatherSituation>>
    const wiki: Client<string>

    constructor (ow: Client<Option<WeatherSituation>>, wiki: Client<string>)
      ensures this.ow == ow && this.wiki == wiki
    {
      this.ow := ow;
      this.wiki := wiki;
    }

    /**
     * Both providers are called once, with the same context and name, before
     * either answer is looked at.  The two goroutines may finish in either
     * order; the scheduler's choice is `weatherFirst`, and the result does not
     * depend on it.
     */
    method LocationDescriptionWithWeather(ctx: Context, locationName: string)
      returns (r: Outcome<Option<LocationDescriptionWithWeather>>)
      requires WellFormed(ow.respond(ctx, locationName))
      modifies ow, wiki
      ensures r == Join(ow.respond(ctx, locationName), wiki.respond(ctx, locationName))
      ensures ow.calls == old(ow.calls) + [Call(ctx, locationName)]
      ensures wiki.calls == old(wiki.calls) + [Call(ctx, locationName)]
    {
      var weather: Outcome<Option<WeatherSituation>>;
      var description: Outcome<string>;
      var weatherFirst: bool :| true;
      if weatherFirst {
        weather := ow.Invoke(ctx, locationName);
        description := wiki.Invoke(ctx, locationName);
      } else {
        description := wiki.Invoke(ctx, locationName);
        weather := ow.Invoke(ctx, locationName);
      }
      r := Join(weather, description);
    }
  }
}
