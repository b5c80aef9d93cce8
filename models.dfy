/**
 * The records that flow between the upstream provider, the client, the
 * controller and the error handler. JavaScript objects become datatypes;
 * numbers become `real` (IEEE behaviour is not modelled).
 */
module Models {
  import opened Wrappers

  /** Fixed coordinates of a registered city (`City` in src/models/Cities.ts). */
  datatype City = City(lat: real, lon: real)

  /** One key of the city registry together with its coordinates. */
  datatype Entry = Entry(key: string, city: City)

  /** The `main` block of an upstream payload: the only measurements the gateway reads. */
  datatype Main = Main(temp: real, pressure: real, humidity: real)

  /** Upstream current-weather payload: the city name the provider reports and its readings. */
  datatype CurrentWeather = CurrentWeather(name: string, main: Main)

  /** One three-hour entry of the upstream forecast `list`. */
  datatype Timeslot = Timeslot(dtTxt: string, main: Main)

  /** Upstream three-hour forecast payload. */
  datatype ThreeHourForecast = ThreeHourForecast(list: seq<Timeslot>)

  /** The value of a JavaScript `status` property: absent, `null`, or a number. */
  datatype Status = Undefined | Null | Code(n: int)
  {
    /** JavaScript truthiness of the value (`0`, `null` and `undefined` are falsy). */
    predicate Truthy() {
      Code? && n != 0
    }
  }

  /**
   * An error record `{name, message, status, stack}`: what the client builds
   * from a failed call, the controller's wrong-city error, and any other
   * value that is thrown and reaches the error handler.
   */
  datatype ErrorRecord = ErrorRecord(name: string, message: string, status: Status, stack: Option<string>)

  /**
   * What a rejected upstream call throws. `code` stands for the fields of the
   * exception that the client does not copy into its error record.
   */
  datatype AxiosError = AxiosError(name: string, message: string, status: Status, stack: Option<string>, code: Option<string>)

  /** The outcome of one call to the provider: the response data, or the exception it raised. */
  datatype Transport<T> = Resolved(data: T) | Rejected(err: AxiosError)

  /** What the client returns: the response data, or an error record built from the exception. */
  datatype Returned<T> = Data(data: T) | Record(error: ErrorRecord)

  /** What a controller operation does: return a value, or throw an error to the HTTP boundary. */
  datatype Outcome<T> = Return(value: T) | Throw(error: ErrorRecord)

  /** The configuration the upstream client is constructed from. */
  datatype ClientConfig = ClientConfig(apiKey: Option<string>, language: string, units: string)

  /** The query parameters of an upstream request. */
  datatype RequestParams = RequestParams(lat: real, lon: real, appid: string, language: string, units: string)

  /** One upstream request: the endpoint and its query parameters. */
  datatype Request = Request(url: string, params: RequestParams)
}
