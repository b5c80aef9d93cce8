/**
 * The upstream client (src/lib/OpenWeatherMapClient.ts): it stores the API key,
 * language and units it was configured with, builds the request for a city,
 * and turns every outcome of the call into either the response data or an
 * error record, never throwing.
 */
module WeatherClient {
  import opened Wrappers
  import opened Models
  import opened Upstream

  const WeatherUrl := "https://api.openweathermap.org/data/2.5/weather"
  const ForecastUrl := "https://api.openweathermap.org/data/2.5/forecast"

  /** The `Error("Missing config")` the constructor throws: a plain Error carries no status. */
  const MissingConfig := ErrorRecord("Error", "Missing config", Undefined, None)

  /**
   * The error discriminant on any thrown or returned record: it is an error
   * exactly when its `status` property is not `undefined`.
   */
  predicate IsClientErrorRecord(e: ErrorRecord)
    ensures IsClientErrorRecord(e) <==> e.status.Null? || e.status.Code?
  {
    e.status != Undefined
  }

  /**
   * The discriminant on what the client returns. Upstream payloads carry no
   * `status` property, so only an error record can be classified as an error.
   */
  predicate IsClientError<T>(r: Returned<T>)
    ensures IsClientError(r) <==> r.Record? && r.error.status != Undefined
  {
    match r
    case Data(_) => false
    case Record(e) => IsClientErrorRecord(e)
  }

  /** `!config?.apiKey`: no config, no key, or an empty key. */
  predicate HasApiKey(config: Option<ClientConfig>)
    ensures HasApiKey(config) <==> config.Some? && config.value.apiKey.Some? && |config.value.apiKey.value| > 0
  {
    config.Some? && config.value.apiKey.Some? && config.value.apiKey.value != ""
  }

  /** The try/catch of the client: resolved data unchanged, an exception copied field by field. */
  function Normalize<T>(t: Transport<T>): (r: Returned<T>)
    ensures r.Data? <==> t.Resolved?
    ensures t.Resolved? ==> r.data == t.data
    ensures t.Rejected? ==> r.error.name == t.err.name && r.error.message == t.err.message
                            && r.error.status == t.err.status && r.error.stack == t.err.stack
  {
    match t
    case Resolved(data) => Data(data)
    case Rejected(err) => Record(ErrorRecord(err.name, err.message, err.status, err.stack))
  }

  /** A failure is classified as an error exactly when the exception carried a status. */
  lemma ClassifiedIffStatusDefined<T>(t: Transport<T>)
    ensures IsClientError(Normalize(t)) <==> t.Rejected? && t.err.status != Undefined
  {
  }

  /** `null` and `0` statuses are defined, so they still count as errors. */
  lemma FalsyStatusesAreErrors(e: ErrorRecord)
    requires e.status == Null || e.status == Code(0)
    ensures IsClientErrorRecord(e) && !e.status.Truthy()
  {
  }

  class OpenWeatherMapClient {
    const apikey: string
    const language: string
    const units: string

    /** Stores the configuration; the failing case is `Create` below. */
    constructor (config: ClientConfig)
      requires HasApiKey(Some(config))
      ensures apikey == config.apiKey.value
      ensures language == config.language
      ensures units == config.units
    {
      apikey := config.apiKey.value;
      language := config.language;
      units := config.units;
    }

    /** `new OpenWeatherMapClient(config)`: throws "Missing config" unless a non-empty key is given. */
    static method Create(config: Option<ClientConfig>) returns (r: Outcome<OpenWeatherMapClient>)
      ensures !HasApiKey(config) ==> r == Throw(MissingConfig)
      ensures HasApiKey(config) ==>
                && r.Return? && fresh(r.value)
                && r.value.apikey == config.value.apiKey.value
                && r.value.language == config.value.language
                && r.value.units == config.value.units
    {
      if !HasApiKey(config) {
        return Throw(MissingConfig);
      }
      var client := new OpenWeatherMapClient(config.value);
      r := Return(client);
    }

    /** The query parameters both requests send for a city. */
    function Params(city: City): (p: RequestParams)
      ensures p.lat == city.lat && p.lon == city.lon
      ensures p.appid == apikey && p.language == language && p.units == units
    {
      RequestParams(city.lat, city.lon, apikey, language, units)
    }

    function CurrentRequest(city: City): (r: Request)
      ensures r.url == WeatherUrl
      ensures r.params == Params(city)
      ensures r.params.lat == city.lat && r.params.lon == city.lon && r.params.appid == apikey
    {
      Request(WeatherUrl, Params(city))
    }

    function ForecastRequest(city: City): (r: Request)
      ensures r.url == ForecastUrl
      ensures r.params == Params(city)
      ensures r.params.lat == city.lat && r.params.lon == city.lon && r.params.appid == apikey
    {
      Request(ForecastUrl, Params(city))
    }

    /** The current-weather requests for a run of registry entries, in order. */
    ghost function CurrentRequests(entries: seq<Entry>): (reqs: seq<Request>)
      ensures |reqs| == |entries|
      ensures forall i :: 0 <= i < |entries| ==> reqs[i] == CurrentRequest(entries[i].city)
    {
      seq(|entries|, i requires 0 <= i < |entries| => CurrentRequest(entries[i].city))
    }

    /** The two requests for a city differ only in their endpoint. */
    lemma RequestsDifferOnlyInUrl(city: City)
      ensures CurrentRequest(city).params == ForecastRequest(city).params
      ensures CurrentRequest(city).url == WeatherUrl && ForecastRequest(city).url == ForecastUrl
      ensures CurrentRequest(city) != ForecastRequest(city)
    {
      assert WeatherUrl[40] != ForecastUrl[40];
    }

    /** One call to the provider; a failure becomes an error record, so this never throws. */
    method Retrieve<T>(url: string, params: RequestParams, provider: Provider<T>) returns (returnedValue: Returned<T>)
      modifies provider
      ensures provider.log == old(provider.log) + [Request(url, params)]
      ensures returnedValue == Normalize(provider.answer(Request(url, params)))
    {
      var t := provider.Get(Request(url, params));
      returnedValue := Normalize(t);
    }

    method GetCurrentWeatherByCity(city: City, provider: Provider<CurrentWeather>) returns (r: Returned<CurrentWeather>)
      modifies provider
      ensures provider.log == old(provider.log) + [CurrentRequest(city)]
      ensures r == Normalize(provider.answer(CurrentRequest(city)))
    {
      var params := Params(city);
      r := Retrieve(WeatherUrl, params, provider);
    }

    method GetThreeHourForecastByCityName(city: City, provider: Provider<ThreeHourForecast>) returns (r: Returned<ThreeHourForecast>)
      modifies provider
      ensures provider.log == old(provider.log) + [ForecastRequest(city)]
      ensures r == Normalize(provider.answer(ForecastRequest(city)))
    {
      var params := Params(city);
      r := Retrieve(ForecastUrl, params, provider);
    }
  }
}
