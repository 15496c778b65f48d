# Weather aggregator: a Dafny model

This project models the core of a small Go HTTP service that answers
`GET /weather/<city>` with a temperature for the city. The service asks each
configured upstream weather provider in turn and averages their readings. The
model covers:

- **Provider adapters** (module `Providers`). OpenWeatherMap reports Kelvin
  and its reading is returned unchanged. Weather Underground reports Celsius
  and 273.15 is added. Each adapter hands exactly one URL to `http.Get`, with
  the city pasted in verbatim. A transport failure or a decode failure comes back
  as an error, with 0 as the value, following Go's `(float64, error)`
  convention.
- **The upstream services** (class `Providers.Upstream`). They are an oracle:
  the answer to the n-th call of `http.Get` overall, for a given URL string,
  is fixed in advance (it may differ from one call to the next), and every
  URL handed to `http.Get` is logged. This keeps the network out, while call order, call
  count and the city each call carries stay observable.
- **Aggregation** (module `Aggregation`). It is one pass over the ordered
  provider list. The first error is returned unchanged, and no later provider
  is asked. Otherwise the result is the sum of the readings over the number
  of providers. Both copies of this loop are modelled as methods with loop
  invariants: the method on `multiWeatherProvider` and the variadic
  `temperature(city, providers...)`. Both are proved against one
  specification function, `Aggregate`, and the properties of the rule are
  proved as lemmas about it.
- **Readings** (module `Readings`). This is the arithmetic of the mean,
  taken over the reals: it does not depend on order, and it lies between the
  lowest and the highest reading.
- **City extraction** (module `Handler`). This is
  `strings.SplitN(path, "/", 3)[2]` for a one-character separator, plus the
  handler's choice of response.

The model departs from the Go code in two places, both where the code does
something the real numbers cannot express, or crashes:

- With no providers, the Go code computes `0.0 / 0` and returns NaN with a
  nil error. Reals have no NaN, so `Aggregate` returns the configuration
  error `NoProviders` instead.
- A path with fewer than two `/` would make the Go handler index out of range
  and panic. `CityOf` returns `MalformedPath` instead, and `ServeWeather`
  answers `BadRequest` without asking any provider. Under the handler's route
  this case cannot arise: every path it receives starts with `/weather/`
  (`WeatherRouteCity`).

For the path `/weather/` the code takes the empty string as the city and asks
the providers for it; the model does the same.

The access keys embedded in the Go source are replaced by named placeholders
(`OpenWeatherMapKey`, `WeatherUndergroundKey`); no property depends on them.

## Model

| member | source | states |
|---|---|---|
| `Providers.Url` | main.go:39-65 | the request URL of each adapter: OpenWeatherMap's fixed endpoint with the city appended; Weather Underground's endpoint with the key, then the city, then `.json` |
| `Providers.Returns` | main.go:41-84 | Go's `(float64, error)` pair as the adapters return it: the reading with a nil error on success, 0 with the error on failure |
| `Providers.ReturnsConvention` | main.go:41-84 | under that convention the error is nil exactly when the outcome is a success; then the value is the reading, otherwise it is 0 and the error is the failure's own |
| `Providers.CityInUrl` | main.go:38-65 | a request URL yields a city only when that city's URL is exactly the given one |
| `Providers.UrlCarriesCity` | main.go:38-65 | each adapter's request URL carries the city it was asked about, verbatim and recoverable |
| `Providers.UrlInjective` | main.go:38-65 | one adapter never hands `http.Get` the same URL for two different cities |
| `Providers.FreezingPoint` | main.go:82 | a Weather Underground reading of 0 degrees Celsius becomes 273.15 |
| `Providers.NormaliseAgrees` | main.go:61-82 | OpenWeatherMap's reading is unchanged; Weather Underground's is shifted by 273.15 and not rescaled, so both report a temperature on the same scale |
| `Providers.Normalise` | main.go:61-82 | the canonical reading: OpenWeatherMap's field unchanged; Weather Underground's field plus 273.15, so subtracting 273.15 gives back the Celsius value |
| `Providers.Reading` | main.go:40-84 | what an adapter returns for its request's outcome: a success exactly when the body decoded, carrying the normalised field |
| `Providers.ReadingOutcome` | main.go:40-84 | an adapter fails exactly when its request or its decoding failed, and passes on that error's kind and message; otherwise it returns the normalised field |
| `Providers.Upstream.Get` | main.go:39 | one GET: logs the URL and returns the answer fixed for that call's position and URL |
| `Providers.OpenWeatherMapTemperature` | main.go:38-62 | hands `http.Get` exactly its URL for the city and returns the Kelvin field unchanged, or 0 and the error |
| `Providers.WeatherUndergroundTemperature` | main.go:64-85 | hands `http.Get` exactly its keyed URL for the city and returns the Celsius field plus 273.15, or 0 and the error |
| `Providers.Temperature` | main.go:29-31 | asking any provider hands `http.Get` exactly one URL, that provider's URL for the city |
| `Readings.Sum` | main.go:89-97 | the running total the loop keeps: 0 for no readings, and each further reading added in list order |
| `Readings.Mean` | main.go:100 | the total divided by the number of readings, for a non-empty list |
| `Readings.SumPermutation` | main.go:97 | the accumulated sum does not depend on the order of the readings |
| `Readings.MeanBounds` | main.go:100 | the sum over the count lies between the lowest and the highest reading |
| `Readings.MeanPermutation` | main.go:100 | the sum over the count does not depend on the order of the readings |
| `Aggregation.Aggregate` | main.go:88-101 | the result of the fold over the replies in list order: succeeds exactly when there are providers and all succeed, and then is the mean; else the first failure's error, or `NoProviders` for no providers |
| `Aggregation.FirstFailure` | main.go:91-95 | the position where the fold stops: every earlier reply succeeded and the reply there failed |
| `Aggregation.FailureIsFirst` | main.go:91-95 | a failure preceded only by successes decides the aggregate with its own error, unchanged, and exactly that many providers plus one are asked |
| `Aggregation.AggregateFailsIff` | main.go:91-100 | the aggregate fails if and only if the list is empty or some provider fails; a failure with providers is one provider's own reply |
| `Aggregation.AllSucceedGivesMean` | main.go:89-100 | when every provider succeeds, all are asked and the result is the sum of the readings divided by the provider count |
| `Aggregation.SingleProvider` | main.go:100 | for a one-provider list the aggregate is that provider's reply exactly |
| `Aggregation.OrderIndependent` | main.go:97-100 | reordering providers that all succeed does not change the aggregate |
| `Aggregation.AggregateWithinReadings` | main.go:97-100 | a successful aggregate lies between the lowest and the highest reading |
| `Aggregation.UnqueriedIgnored` | main.go:91-95 | replies of providers after the first failure cannot change the result or the number asked |
| `Aggregation.TwoProvidersExample` | main.go:88-101 | readings 300.0 and 280.0 aggregate to 290.0 |
| `Aggregation.ProgressStep` | main.go:89-97 | the loop invariant is kept: after one more success the running sum grows by that reading and the log by that provider's URL |
| `Aggregation.StopAtFailure` | main.go:92-95 | returning 0 and the error at the first failure is the aggregate, and the log then ends with the failing provider's URL |
| `Aggregation.FinishWithMean` | main.go:100 | after the loop with all providers successful, the sum over the count is the aggregate and every provider's URL is in the log |
| `Aggregation.SumStep` | main.go:97 | after one more success the running sum grows by exactly that reading, so after k successes it is the sum of the first k readings |
| `Aggregation.MultiWeatherProvider.Temperature` | main.go:88-101 | (`Aggregated`) returns the aggregate of the providers' replies in Go's value-and-error form, and hands `http.Get` exactly the URLs of the providers it asks, in list order, all for the same city, none after the first failure |
| `Aggregation.Temperature` | main.go:104-117 | the variadic copy of the fold, proved against the same specification |
| `Aggregation.VariadicMatchesMulti` | main.go:88-117 | the two copies return the same result and hand `http.Get` the same URLs when the upstreams answer alike |
| `Handler.SplitN` | main.go:138 | at most n pieces, and for n > 0 at least one (none for n = 0); no separator in any piece but the last; and none in the last when fewer than n pieces came out |
| `Handler.CityOf` | main.go:138 | the third piece of the path split at `/` into at most three: a tail of the path when it exists, else `MalformedPath` naming the path |
| `Handler.SplitNJoin` | main.go:138 | the pieces joined with the separator give back the path, so splitting loses nothing |
| `Handler.CityOfIff` | main.go:138 | a path has a city if and only if it holds at least two slashes; otherwise the error names the path |
| `Handler.CityAfterSecondSlash` | main.go:138 | the city is exactly everything after the second slash, further slashes included |
| `Handler.WeatherRouteCity` | main.go:136-138 | for every path `/weather/` + rest the city is rest |
| `Handler.ServeWeather` | main.go:136-144 | a path with no city is refused before any URL is handed to `http.Get`; otherwise the configured providers are aggregated for the city and a failure becomes a server error carrying that error |
| `Handler.Respond` | main.go:140-151 | a success becomes the JSON response carrying the city and the temperature, a failure a server error carrying that error; a success never becomes an error response and vice versa |
| `Handler.ConfiguredExample` | main.go:128-140 | with the configured providers, 300 K from OpenWeatherMap and 6.85 degrees Celsius from Weather Underground give 290 K |
| `Handler.ConfiguredNeverEmpty` | main.go:128-131 | the service is configured with two providers, OpenWeatherMap then Weather Underground with its key, so every failure it reports is an upstream's transport or decode error, never the empty-list error |

## Left out

- Network I/O: `http.Get` is the oracle `Upstream.Get`. Its answers are given
  in advance, per call position and URL, and are not fetched.
- URL parsing by `http.Get` (fragments, escape checks) and redirects are not
  modelled; the log records the URL strings passed to `http.Get`.
- JSON decoding: a decode failure, or a decoded temperature field, is part of
  the oracle's answer (`Fetched`). The JSON shapes themselves are not modelled.
  Go's decoder does not fail on a missing `temp` or `temp_c` key, or on an
  error body of another shape: it leaves the field at 0 and returns no error.
  Those cases are `Decoded(0.0)`, not `DecodeFailure`; Weather Underground
  then reports 273.15.
- Logging (`log.Printf`) and closing response bodies (`defer resp.Body.Close()`):
  these are side effects with no effect on results.
- Floating point: readings, sums, the mean and the 273.15 offset are exact
  reals. Rounding of `float64` and Go's NaN for `0.0 / 0` are not modelled.
- Aggregation.Temperature, Aggregation.MultiWeatherProvider.Temperature: with an empty provider list they return the
  error `NoProviders` where the Go code returns NaN with no error.
- Handler.CityOf: a path with fewer than two slashes gives `MalformedPath`
  where the Go code panics.
- Handler.SplitN: only a one-character separator and a limit of zero or more
  are modelled. The handler uses `"/"` and 3.
- Response writing: headers, the JSON encoding of `{city, temp, took}`, and
  `http.Error` with status 500 are not modelled. `Handler.Response` records
  which response is chosen and with what content.
- Timing: the `took` field (`time.Now`, `time.Since`) is wall-clock time.
- The `/hello` handler, route registration and `ListenAndServe` are
  routing and server start-up.
- A `multiWeatherProvider` nested inside another as one of its providers: Go
  allows it through the interface, but the service never does it.
- The `weatherData` struct is never used.
- Concurrency between requests belongs to the HTTP server.
