# Weather gateway decision layer, in Dafny

This project models the decision layer of a small weather gateway. The gateway accepts a city name, checks it against a fixed registry of three cities (Bologna, Seattle, Canberra), asks the OpenWeatherMap provider for current weather or a three-hour forecast, and reshapes the answer. A grouped operation queries every city and reports the mean temperature and the most humid and warmest city. An error handler turns thrown errors into an HTTP status and a plain-text body.

The upstream HTTP call is replaced by `Upstream.Provider<T>`. It answers each request by a fixed oracle (`answer`) and logs every request it receives (`log`). The method contracts can therefore say which requests an operation sends, and also which it does not send: none for a rejected city, and none after the first failing city in the grouped loop.

Modules:

- `Wrappers` (wrappers.dfy): the `Option` type, standing for a value that may be absent (`undefined`/`null` fields, the NaN mean).
- `Models` (models.dfy): the records passed between the components. `Status` models a JavaScript `status` property, which can be `undefined`, `null` or a number. `ErrorRecord` is `{name, message, status, stack}`. `Returned<T>` is what the client returns: the response data or an error record. `Outcome<T>` is what a controller operation does: return a value or throw.
- `Upstream` (upstream.dfy): the provider behind `axios.get`.
- `WeatherClient` (weather_client.dfy): `src/lib/OpenWeatherMapClient.ts`. This covers the error discriminant, the config check, request construction and result normalisation.
- `Registry` (registry.dfy): the city registry and the wrong-city error of `src/controllers/ForecastController.ts`.
- `ForecastSpec` (forecast_spec.dfy): reference definitions of what the controller computes, with their lemmas. These are the five-day map (`FiveDays`), the running maxima (`HighestOf`), the mean (`Mean`) and the fail-fast grouped outcome (`Grouped`, `Queried`).
- `Controller` (forecast_controller.dfy): the controller class. Its methods are proved against the `ForecastSpec` functions.
- `Routes` (forecast_routes.dfy): `errorHandler` of `src/routes/forecast.ts`, as a function from the thrown error to an optional status and a body.

Behaviour of the source worth knowing when reading the contracts:

- A status of `undefined` fails the discriminant `status !== undefined` (src/lib/OpenWeatherMapClient.ts:23). An error record built from an exception without a status (src/lib/OpenWeatherMapClient.ts:51) is therefore not treated as an error. What happens next depends on the operation:
  - The current-weather operation returns such a record as a success (src/controllers/ForecastController.ts:59-62).
  - The five-day operation throws a JavaScript TypeError on `results.list` (src/controllers/ForecastController.ts:214).
  - The grouped operation throws a TypeError on `cityForecast.main.temp` (src/controllers/ForecastController.ts:124).
  - The error handler renders either TypeError without setting a status (src/routes/forecast.ts:136).

  The 501 default of `error.status || 501` applies only to a defined but falsy status (`null` or `0`). The lemmas `Controller.UndefinedStatusPassesThrough`, `Routes.UndefinedStatusFiveDaysRendered` and `Routes.UndefinedStatusGroupedRendered` state this.
- The client constructor validates the key and throws "Missing config" (src/lib/OpenWeatherMapClient.ts:27-29). In the source this happens while the controller module loads (src/controllers/ForecastController.ts:27). The model states it as `WeatherClient.OpenWeatherMapClient.Create`.
- In the grouped operation, `cityName` is the `name` the provider reports, not the registry key.

In the source, the three input bindings of each operation (query, body, path) and the two bindings of the grouped operation have identical bodies. In the model, the query binding holds the body, and the other bindings delegate to it with the same contract.

## Model

| member | source | states |
|---|---|---|
| `Registry.Keys` | src/controllers/ForecastController.ts:42-44 | `Object.keys` yields one key per registry entry, in registry order |
| `Registry.Lookup` | src/controllers/ForecastController.ts:55-57 | for an accepted name, the coordinates returned are those stored under that exact key |
| `Registry.IsAvailable` | src/controllers/ForecastController.ts:52 | `Object.keys(cities).includes(cityName)`: a name is accepted iff some registry entry has exactly that key |
| `Registry.Join` | src/controllers/ForecastController.ts:42-44 | `join(",")`: the empty list gives the empty string; otherwise the result starts with the first key, followed by the separator when more keys follow |
| `Registry.LookupStoredValue` | src/controllers/ForecastController.ts:55-57 | for any registry entry, looking up its key gives exactly the coordinates stored in that entry |
| `Registry.KeysDistinct` | src/controllers/ForecastController.ts:13-26 | the three registry keys are pairwise distinct |
| `Registry.AvailableIffRegistered` | src/controllers/ForecastController.ts:52 | a name is accepted iff it equals "Bologna", "Seattle" or "Canberra" exactly |
| `Registry.NoNormalisation` | src/controllers/ForecastController.ts:52 | "Bologna" is accepted and "bologna" is rejected (no case folding) |
| `Registry.WrongCityMessageText` | src/controllers/ForecastController.ts:40-46 | the wrong-city error has status 400 and message prefix + "Bologna,Seattle,Canberra" |
| `Registry.JoinSplit` | src/controllers/ForecastController.ts:42-44 | splitting a ","-joined list of comma-free names at commas gives back the names |
| `Registry.WrongCityListsKeys` | src/controllers/ForecastController.ts:42-44 | the part of the message after the prefix lists exactly the registry keys, in order, separated by "," |
| `Upstream.Provider.Get` | src/lib/OpenWeatherMapClient.ts:42-44 | one upstream GET: the request is appended to the log and answered by the oracle |
| `WeatherClient.IsClientErrorRecord` | src/lib/OpenWeatherMapClient.ts:23 | an error record satisfies the discriminant iff its status is `null` or a number, that is, not `undefined` |
| `WeatherClient.IsClientError` | src/lib/OpenWeatherMapClient.ts:17-24 | a client result is classified as an error iff it is an error record whose status is not `undefined`; a payload never is |
| `WeatherClient.HasApiKey` | src/lib/OpenWeatherMapClient.ts:27 | `config?.apiKey` is truthy iff the config is present and holds a present, non-empty key |
| `WeatherClient.ClassifiedIffStatusDefined` | src/lib/OpenWeatherMapClient.ts:17-24 | a client result is classified as an error iff the call failed with a status that is not `undefined` |
| `WeatherClient.FalsyStatusesAreErrors` | src/lib/OpenWeatherMapClient.ts:23 | a `null` or `0` status still satisfies the discriminant, although it is falsy |
| `WeatherClient.Normalize` | src/lib/OpenWeatherMapClient.ts:41-56 | success iff the call resolved, with the data unchanged; a failure keeps the exception's name, message, status and stack |
| `WeatherClient.OpenWeatherMapClient.constructor` | src/lib/OpenWeatherMapClient.ts:26-33 | with a non-empty key, the stored key, language and units equal the config fields |
| `WeatherClient.OpenWeatherMapClient.Create` | src/lib/OpenWeatherMapClient.ts:26-33 | throws "Missing config" iff the config or its key is absent or the key is empty; otherwise a fresh client holding the config fields |
| `WeatherClient.OpenWeatherMapClient.Params` | src/lib/OpenWeatherMapClient.ts:62-68 | the query parameters are the city's lat/lon and the stored key, language and units |
| `WeatherClient.OpenWeatherMapClient.CurrentRequest` | src/lib/OpenWeatherMapClient.ts:59-73 | the current-weather request goes to the `/data/2.5/weather` URL with exactly the parameters `Params(city)`: the city's lat/lon and the stored key, language and units |
| `WeatherClient.OpenWeatherMapClient.ForecastRequest` | src/lib/OpenWeatherMapClient.ts:76-92 | the forecast request goes to the `/data/2.5/forecast` URL with exactly the parameters `Params(city)`: the city's lat/lon and the stored key, language and units |
| `WeatherClient.OpenWeatherMapClient.CurrentRequests` | src/controllers/ForecastController.ts:116-119 | one current-weather request per city, in the order given |
| `WeatherClient.OpenWeatherMapClient.RequestsDifferOnlyInUrl` | src/lib/OpenWeatherMapClient.ts:59-93 | both requests for a city carry the same parameters; only the endpoint (`/weather` vs `/forecast`) differs |
| `WeatherClient.OpenWeatherMapClient.Retrieve` | src/lib/OpenWeatherMapClient.ts:35-57 | exactly one request to the given URL with the given parameters; returns its normalised answer, never throws |
| `WeatherClient.OpenWeatherMapClient.GetCurrentWeatherByCity` | src/lib/OpenWeatherMapClient.ts:59-74 | sends exactly the current-weather request for the city and returns its normalised answer |
| `WeatherClient.OpenWeatherMapClient.GetThreeHourForecastByCityName` | src/lib/OpenWeatherMapClient.ts:76-93 | sends exactly the forecast request for the city and returns its normalised answer |
| `ForecastSpec.FiveDaysKeys` | src/controllers/ForecastController.ts:212-221 | the keys of the five-day map are exactly the `dt_txt` values of the list |
| `ForecastSpec.FiveDays` | src/controllers/ForecastController.ts:212-220 | the reshaping loop as a left fold over the list: the empty list gives the empty map, and the last timeslot's `dt_txt` maps to its own readings |
| `ForecastSpec.FiveDaysLastWins` | src/controllers/ForecastController.ts:214-220 | the value under a timestamp is `{temp, pressure, humidity}` of the last timeslot bearing it |
| `ForecastSpec.FiveDaysSize` | src/controllers/ForecastController.ts:212-221 | with distinct timestamps the map has as many keys as the list has entries |
| `ForecastSpec.FiveDaysOutcome` | src/controllers/ForecastController.ts:209-221 | a classified error is rethrown; an unclassified error record fails on `results.list`; a payload gives exactly the reshaped map `FiveDays` of its list, keyed by its timestamps |
| `ForecastSpec.HighestStaysSentinel` | src/controllers/ForecastController.ts:103-113 | when no reading exceeds -999 the maximum stays `{cityName: null, value: -999}` |
| `ForecastSpec.Step` | src/controllers/ForecastController.ts:126-140 | one update of a running maximum: the result is the old maximum or the new city's reading, and it is at least both |
| `ForecastSpec.HighestOf` | src/controllers/ForecastController.ts:126-140 | the running maximum after a list of cities: at least -999 and at least every city's reading |
| `ForecastSpec.HighestIsFirstMaximum` | src/controllers/ForecastController.ts:126-140 | otherwise it is the largest reading, named after the first city in order attaining it (ties keep the earlier city) |
| `ForecastSpec.Temperatures` | src/controllers/ForecastController.ts:114-124 | one temperature is collected per city, in registry order |
| `ForecastSpec.Sum` | src/controllers/ForecastController.ts:144 | `reduce((a, b) => a + b, 0)`: a single temperature sums to itself, and non-negative temperatures have a non-negative sum |
| `ForecastSpec.SumBounds` | src/controllers/ForecastController.ts:144 | temperatures within [lo, hi] sum to within count times lo and count times hi |
| `ForecastSpec.MeanBounds` | src/controllers/ForecastController.ts:143-144 | for a non-empty list, the mean temperature lies between any lower and upper bound of the temperatures |
| `ForecastSpec.Mean` | src/controllers/ForecastController.ts:143-144 | the mean times the count equals the sum of the temperatures; undefined (NaN) exactly for an empty list |
| `ForecastSpec.FirstStop` | src/controllers/ForecastController.ts:116-122 | the index of the first city whose answer is not a payload; every earlier answer is a payload |
| `ForecastSpec.StopError` | src/controllers/ForecastController.ts:121-124 | the exception at the first failing city is its error record when classified, and otherwise the `main.temp` TypeError; the thrown error satisfies the discriminant iff the answer did |
| `ForecastSpec.Grouped` | src/controllers/ForecastController.ts:116-146 | the grouped outcome throws iff some city's answer is not a payload; a returned response is the aggregate of all the payloads |
| `ForecastSpec.Queried` | src/controllers/ForecastController.ts:116-122 | the number of cities queried: all of them when every answer is a payload; otherwise up to and including the first failing one, with payloads before it |
| `ForecastSpec.GroupedFailFast` | src/controllers/ForecastController.ts:116-122 | the first failing city's error is thrown (unchanged when classified), no response is returned, and no later city is queried |
| `ForecastSpec.GroupedAllSucceed` | src/controllers/ForecastController.ts:116-146 | without a failure every city is queried and the aggregate of all payloads, with a defined mean, is returned |
| `ForecastSpec.GroupedExample` | src/controllers/ForecastController.ts:100-147 | for A(20°, 50%), B(30°, 40%), C(10°, 90%): mean 20, warmest B at 30, most humid C at 90 |
| `Controller.ParseClientError` | src/controllers/ForecastController.ts:32-36 | `parseOpenWeatherMapClientError` hands back the error record it is given, unchanged |
| `Controller.Classify` | src/controllers/ForecastController.ts:59-62 | throws iff the discriminant holds, and then throws the error record unchanged; otherwise returns the client's result unchanged |
| `Controller.UndefinedStatusPassesThrough` | src/controllers/ForecastController.ts:59-62 | an error record with an undefined status is returned as a success by the current-weather operation |
| `Controller.ReshapeTimeslots` | src/controllers/ForecastController.ts:212-221 | the loop yields exactly the last-write-wins map of the list, keyed by its timestamps |
| `Controller.ForecastController.CurrentAnswers` | src/controllers/ForecastController.ts:116-119 | the client's answer for each registered city, in registry order |
| `Controller.ForecastController.GetCurrentForecast` | src/controllers/ForecastController.ts:48-63 | a rejected city throws the wrong-city error with no upstream request; otherwise one current-weather request for its coordinates, then `Classify` of the answer |
| `Controller.ForecastController.PostCurrentForecast` | src/controllers/ForecastController.ts:65-80 | the same contract as the query binding |
| `Controller.ForecastController.PathCurrentForecast` | src/controllers/ForecastController.ts:82-97 | the same contract as the query binding |
| `Controller.ForecastController.GetFiveDaysForecast` | src/controllers/ForecastController.ts:198-222 | a rejected city throws the wrong-city error with no upstream request; otherwise one forecast request, then `FiveDaysOutcome` of the answer |
| `Controller.ForecastController.PathFiveDaysForecast` | src/controllers/ForecastController.ts:224-248 | the same contract as the query binding |
| `Controller.ForecastController.PostFiveDaysForecast` | src/controllers/ForecastController.ts:250-274 | the same contract as the query binding |
| `Controller.ForecastController.GetGroupedForecast` | src/controllers/ForecastController.ts:99-147 | the outcome is `Grouped` of the per-city answers; the requests sent are those of the first `Queried` cities, in order |
| `Controller.ForecastController.PostGroupedForecast` | src/controllers/ForecastController.ts:148-196 | the same contract as GET |
| `Routes.ErrorHandler` | src/routes/forecast.ts:130-139 | the body is always the message; a status is set iff the discriminant holds, and it is the error's status when truthy, else 501 |
| `Routes.WrongCityRendered` | src/routes/forecast.ts:136-138 | the wrong-city error is rendered as 400 with the list of available cities |
| `Routes.UpstreamFailureRendered` | src/routes/forecast.ts:136-138 | an upstream failure with a truthy status is rendered with that status and its message, for current weather and five days alike |
| `Routes.FalsyStatusRendered501` | src/routes/forecast.ts:137 | a failure whose status is `null` or `0` is rendered as 501 |
| `Routes.UndefinedStatusFiveDaysRendered` | src/routes/forecast.ts:136-138 | a failure with an undefined status makes the five-day operation throw a TypeError, which is rendered without a status |
| `Routes.UndefinedStatusGroupedRendered` | src/routes/forecast.ts:136-138 | in the grouped loop the same failure throws the `main.temp` TypeError, also rendered without a status |

## Left out

- The HTTP call itself (axios) is replaced by `Upstream.Provider`. Its answers are a fixed function of the request, so an upstream whose answer to the same request changes between calls is not modelled.
- async/await: each call is a sequential method call. The grouped loop is sequential in the source too.
- Express plumbing is not modelled: route registration, `asyncHandler`, the root handler, extracting `cityName` from the query, body or path (including `toString()`), and sending a successful result as JSON. A `cityName` that is missing or not a string is rejected by `includes`, like any unregistered name. The model takes it as a string only.
- The tsoa decorators and `src/index.ts` (bootstrap) are not modelled. The module-level client built from `process.env` is not modelled either. If the key is missing, its construction would throw when the module loads.
- Readings and coordinates are `real`, and statuses are `int` (`Models.Status.Code`). IEEE rounding, NaN and infinities are not modelled, nor are fractional or NaN statuses. `meanTemp = None` stands for the NaN of an empty list.
- Upstream payloads are modelled with only `name`, `main.temp/pressure/humidity`, `list` and `dt_txt`. They are taken to carry no `status` property (the provider reports `cod`). The discriminant would misclassify a payload that has one, and the model does not capture that case.
- The `stack` of errors the runtime creates (`new Error("Missing config")`, TypeErrors) is modelled as absent. The TypeError messages are those of the V8 engine. Their exact text depends on the engine and the compilation target.
- The five-day response is a map. JavaScript object key order and the special key `__proto__` are not modelled.
- `res.status` with a number that is not a valid HTTP code is not modelled. Express would reject it.
- The language and unit enums (defined in `src/models/index.ts`, which is not part of this model) are plain strings.
- `src/models/Cities.ts` holds only types. They appear as `Models.City` and `Models.Entry`.
