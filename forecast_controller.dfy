/**
 * The forecast controller (src/controllers/ForecastController.ts): city
 * validation, the current-weather pass-through, the five-day reshaping and
 * the grouped aggregation, each against the upstream client. The three
 * input bindings of an operation (query, body, path) have identical bodies in
 * the source; here the query variant holds the body and the others delegate.
 */
module Controller {
  import opened Wrappers
  import opened Models
  import opened Upstream
  import opened WeatherClient
  import opened Registry
  import opened ForecastSpec

  /** `parseOpenWeatherMapClientError`: the identity. */
  function ParseClientError(error: ErrorRecord): (parsed: ErrorRecord)
    ensures parsed == error
  {
    error
  }

  /**
   * What the current-weather operation does with the client's result for a
   * valid city: an error is rethrown unchanged, anything else is returned
   * unchanged.
   */
  function Classify<T>(r: Returned<T>): (o: Outcome<Returned<T>>)
    ensures o.Throw? <==> IsClientError(r)
    ensures o.Throw? ==> r.Record? && o.error == r.error
    ensures o.Return? ==> o.value == r
  {
    if IsClientError(r) then Throw(ParseClientError(r.error)) else Return(r)
  }

  /** An error record with an undefined status is passed through as a success. */
  lemma UndefinedStatusPassesThrough<T>(err: AxiosError)
    requires err.status == Undefined
    ensures Classify(Normalize<T>(Rejected(err))).Return?
    ensures Classify(Normalize<T>(Rejected(err))).value.Record?
  {
  }

  /** The five-day loop: assign each timeslot's readings under its `dt_txt`. */
  method ReshapeTimeslots(list: seq<Timeslot>) returns (response: map<string, Reading>)
    ensures response == FiveDays(list)
    ensures response.Keys == Stamps(list)
  {
    response := map[];
    for i := 0 to |list|
      invariant response == FiveDays(list[..i])
    {
      var threeHoursTimeslot := list[i];
      response := response[threeHoursTimeslot.dtTxt := Reading(threeHoursTimeslot.main.temp,
                                                                threeHoursTimeslot.main.pressure,
                                                                threeHoursTimeslot.main.humidity)];
      assert list[..i + 1][..i] == list[..i];
    }
    assert list[..|list|] == list;
    FiveDaysKeys(list);
  }

  class ForecastController {
    const client: OpenWeatherMapClient

    constructor (client: OpenWeatherMapClient)
      ensures this.client == client
    {
      this.client := client;
    }

    /** The client's result for each registered city, in registry order. */
    ghost function CurrentAnswers(provider: Provider<CurrentWeather>): (rs: seq<Returned<CurrentWeather>>)
      ensures |rs| == |Cities|
      ensures forall i :: 0 <= i < |Cities| ==> rs[i] == Normalize(provider.answer(client.CurrentRequest(Cities[i].city)))
    {
      seq(|Cities|, i requires 0 <= i < |Cities| => Normalize(provider.answer(client.CurrentRequest(Cities[i].city))))
    }

    /** GET /today?cityName=: validate, ask the client, rethrow an error or return the result. */
    method GetCurrentForecast(cityName: string, provider: Provider<CurrentWeather>) returns (outcome: Outcome<Returned<CurrentWeather>>)
      modifies provider
      ensures !IsAvailable(cityName) ==> outcome == Throw(WrongCity) && provider.log == old(provider.log)
      ensures IsAvailable(cityName) ==>
                var request := client.CurrentRequest(Lookup(Cities, cityName));
                && provider.log == old(provider.log) + [request]
                && outcome == Classify(Normalize(provider.answer(request)))
    {
      if !IsAvailable(cityName) {
        return Throw(WrongCity);
      }
      var results := client.GetCurrentWeatherByCity(Lookup(Cities, cityName), provider);
      if IsClientError(results) {
        return Throw(ParseClientError(results.error));
      }
      outcome := Return(results);
    }

    /** POST /today: the same as the query binding. */
    method PostCurrentForecast(cityName: string, provider: Provider<CurrentWeather>) returns (outcome: Outcome<Returned<CurrentWeather>>)
      modifies provider
      ensures !IsAvailable(cityName) ==> outcome == Throw(WrongCity) && provider.log == old(provider.log)
      ensures IsAvailable(cityName) ==>
                var request := client.CurrentRequest(Lookup(Cities, cityName));
                && provider.log == old(provider.log) + [request]
                && outcome == Classify(Normalize(provider.answer(request)))
    {
      outcome := GetCurrentForecast(cityName, provider);
    }

    /** GET /today/{cityName}: the same as the query binding. */
    method PathCurrentForecast(cityName: string, provider: Provider<CurrentWeather>) returns (outcome: Outcome<Returned<CurrentWeather>>)
      modifies provider
      ensures !IsAvailable(cityName) ==> outcome == Throw(WrongCity) && provider.log == old(provider.log)
      ensures IsAvailable(cityName) ==>
                var request := client.CurrentRequest(Lookup(Cities, cityName));
                && provider.log == old(provider.log) + [request]
                && outcome == Classify(Normalize(provider.answer(request)))
    {
      outcome := GetCurrentForecast(cityName, provider);
    }

    /** GET /five-days?cityName=: validate, ask the client, reshape the list into a map. */
    method GetFiveDaysForecast(cityName: string, provider: Provider<ThreeHourForecast>) returns (outcome: Outcome<map<string, Reading>>)
      modifies provider
      ensures !IsAvailable(cityName) ==> outcome == Throw(WrongCity) && provider.log == old(provider.log)
      ensures IsAvailable(cityName) ==>
                var request := client.ForecastRequest(Lookup(Cities, cityName));
                && provider.log == old(provider.log) + [request]
                && outcome == FiveDaysOutcome(Normalize(provider.answer(request)))
    {
      if !IsAvailable(cityName) {
        return Throw(WrongCity);
      }
      var results := client.GetThreeHourForecastByCityName(Lookup(Cities, cityName), provider);
      if IsClientError(results) {
        return Throw(ParseClientError(results.error));
      }
      if results.Record? {
        // `results.list` is undefined on an error record
        return Throw(ListNotIterable);
      }
      var response := ReshapeTimeslots(results.data.list);
      outcome := Return(response);
    }

    /** GET /five-days/{cityName}: the same as the query binding. */
    method PathFiveDaysForecast(cityName: string, provider: Provider<ThreeHourForecast>) returns (outcome: Outcome<map<string, Reading>>)
      modifies provider
      ensures !IsAvailable(cityName) ==> outcome == Throw(WrongCity) && provider.log == old(provider.log)
      ensures IsAvailable(cityName) ==>
                var request := client.ForecastRequest(Lookup(Cities, cityName));
                && provider.log == old(provider.log) + [request]
                && outcome == FiveDaysOutcome(Normalize(provider.answer(request)))
    {
      outcome := GetFiveDaysForecast(cityName, provider);
    }

    /** POST /five-days: the same as the query binding. */
    method PostFiveDaysForecast(cityName: string, provider: Provider<ThreeHourForecast>) returns (outcome: Outcome<map<string, Reading>>)
      modifies provider
      ensures !IsAvailable(cityName) ==> outcome == Throw(WrongCity) && provider.log == old(provider.log)
      ensures IsAvailable(cityName) ==>
                var request := client.ForecastRequest(Lookup(Cities, cityName));
                && provider.log == old(provider.log) + [request]
                && outcome == FiveDaysOutcome(Normalize(provider.answer(request)))
    {
      outcome := GetFiveDaysForecast(cityName, provider);
    }

    /**
     * GET /grouped: query every city in registry order, stop at the first
     * answer that is not a payload, and keep the running maxima and the
     * collected temperatures.
     */
    method GetGroupedForecast(provider: Provider<CurrentWeather>) returns (outcome: Outcome<GroupedForecast>)
      modifies provider
      ensures var rs := CurrentAnswers(provider);
              && outcome == Grouped(rs)
              && provider.log == old(provider.log) + client.CurrentRequests(Cities[..Queried(rs)])
    {
      ghost var rs := CurrentAnswers(provider);
      var highestHumidity := Sentinel;
      var highestTemperature := Sentinel;
      var temperatures: seq<real> := [];
      ghost var fs: seq<CurrentWeather> := [];
      var i := 0;
      while i < |Cities|
        invariant 0 <= i <= |Cities|
        invariant |fs| == i && forall j :: 0 <= j < i ==> rs[j] == Data(fs[j])
        invariant provider.log == old(provider.log) + client.CurrentRequests(Cities[..i])
        invariant temperatures == Temperatures(fs)
        invariant highestHumidity == HighestOf(fs, Humidity)
        invariant highestTemperature == HighestOf(fs, Temperature)
      {
        var cityForecast := client.GetCurrentWeatherByCity(Cities[i].city, provider);
        assert client.CurrentRequests(Cities[..i]) + [client.CurrentRequest(Cities[i].city)]
            == client.CurrentRequests(Cities[..i + 1]);
        if IsClientError(cityForecast) {
          GroupedFailFast(rs, i);
          return Throw(ParseClientError(cityForecast.error));
        }
        if cityForecast.Record? {
          // `cityForecast.main` is undefined on an error record
          GroupedFailFast(rs, i);
          return Throw(MainUndefined);
        }
        var forecast := cityForecast.data;
        temperatures := temperatures + [forecast.main.temp];
        highestHumidity :=
          if forecast.main.humidity > highestHumidity.value
          then Highest(Some(forecast.name), forecast.main.humidity)
          else highestHumidity;
        highestTemperature :=
          if forecast.main.temp > highestTemperature.value
          then Highest(Some(forecast.name), forecast.main.temp)
          else highestTemperature;
        assert (fs + [forecast])[..i] == fs;
        fs := fs + [forecast];
        i := i + 1;
      }
      GroupedAllSucceed(rs);
      assert Payloads(rs) == fs;
      assert Cities[..|Cities|] == Cities;
      outcome := Return(GroupedForecast(Mean(temperatures), highestHumidity, highestTemperature));
    }

    /** POST /grouped: the same as GET. */
    method PostGroupedForecast(provider: Provider<CurrentWeather>) returns (outcome: Outcome<GroupedForecast>)
      modifies provider
      ensures var rs := CurrentAnswers(provider);
              && outcome == Grouped(rs)
              && provider.log == old(provider.log) + client.CurrentRequests(Cities[..Queried(rs)])
    {
      outcome := GetGroupedForecast(provider);
    }
  }
}
