/**
 * The error handler of src/routes/forecast.ts: the status and body it gives
 * the HTTP response for whatever the controller threw. `status` is `None`
 * when the handler does not call `status()`, leaving the framework's default.
 */
module Routes {
  import opened Wrappers
  import opened Models
  import opened WeatherClient
  import opened Registry
  import opened ForecastSpec
  import opened Controller

  datatype Rendered = Rendered(status: Option<int>, body: string)

  /** `status(error.status || 501)` only when the discriminant holds; the body is always the message. */
  function ErrorHandler(error: ErrorRecord): (r: Rendered)
    ensures r.body == error.message
    ensures r.status.Some? <==> IsClientErrorRecord(error)
    ensures r.status.Some? && error.status.Truthy() ==> r.status.value == error.status.n
    ensures r.status.Some? && !error.status.Truthy() ==> r.status.value == 501
  {
    var status :=
      if IsClientErrorRecord(error)
      then Some(if error.status.Truthy() then error.status.n else 501)
      else None;
    Rendered(status, error.message)
  }

  /** The wrong-city error is rendered as 400 with the list of available cities. */
  lemma WrongCityRendered()
    ensures ErrorHandler(WrongCity) == Rendered(Some(400), WrongCityPrefix + "Bologna" + "," + "Seattle" + "," + "Canberra")
  {
    WrongCityMessageText();
  }

  /** An upstream failure carrying a status is rendered with that status and its message. */
  lemma UpstreamFailureRendered(err: AxiosError)
    requires err.status.Truthy()
    ensures Classify(Normalize<CurrentWeather>(Rejected(err))).Throw?
    ensures ErrorHandler(Classify(Normalize<CurrentWeather>(Rejected(err))).error) == Rendered(Some(err.status.n), err.message)
    ensures FiveDaysOutcome(Normalize(Rejected(err))).Throw?
    ensures ErrorHandler(FiveDaysOutcome(Normalize(Rejected(err))).error) == Rendered(Some(err.status.n), err.message)
  {
  }

  /** A failure whose status is `null` or `0` is rendered as 501. */
  lemma FalsyStatusRendered501(err: AxiosError)
    requires err.status == Null || err.status == Code(0)
    ensures ErrorHandler(Classify(Normalize<CurrentWeather>(Rejected(err))).error) == Rendered(Some(501), err.message)
  {
  }

  /**
   * A failure whose status is undefined is not an error to the discriminant:
   * the five-day operation then fails on `results.list`, and that TypeError
   * is rendered without a status.
   */
  lemma UndefinedStatusFiveDaysRendered(err: AxiosError)
    requires err.status == Undefined
    ensures FiveDaysOutcome(Normalize(Rejected(err))) == Throw(ListNotIterable)
    ensures ErrorHandler(ListNotIterable).status.None?
  {
  }

  /**
   * In the grouped loop the same failure stops the loop with the TypeError of
   * `cityForecast.main.temp`, also rendered without a status.
   */
  lemma UndefinedStatusGroupedRendered(err: AxiosError)
    requires err.status == Undefined
    ensures StopError(Normalize(Rejected(err))) == MainUndefined
    ensures ErrorHandler(MainUndefined) == Rendered(None, MainUndefined.message)
  {
  }
}
