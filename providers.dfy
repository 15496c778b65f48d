/**
 * The provider adapters: each turns a city into one temperature reading by
 * asking its upstream service and bringing the answer to the Kelvin scale.
 */
module Providers {
  import opened Wrappers

  /** The errors the service can meet, by origin. */
  datatype Error =
    | Transport(message: string)   // the HTTP request to an upstream failed
    | Decode(message: string)      // the upstream's body did not decode to the expected shape
    | NoProviders                  // an aggregate was asked over no providers at all
    | MalformedPath(path: string)  // a request path with no city segment

  /** The two upstream services; the second one is configured with an access key. */
  datatype Provider = OpenWeatherMap | WeatherUnderground(apiKey: string)

  /**
   * What one request to an upstream produced: the transport failed, the body
   * failed to decode, or it decoded and carried a temperature field (main.temp
   * for OpenWeatherMap, current_observation.temp_c for Weather Underground).
   */
  datatype Fetched = TransportFailure(message: string) | DecodeFailure(message: string) | Decoded(field: real)

  /** Go's (float64, error) convention: the value on success, else 0 together with the error. */
  predicate Returns(temp: real, err: Option<Error>, r: Result<real, Error>)
  {
    match r
    case Success(v) => temp == v && err == None
    case Failure(e) => temp == 0.0 && err == Some(e)
  }

  /**
   * Go's (float64, error) convention: a nil error comes with the reading, and
   * an error comes with 0, which the caller must not use as a reading.
   */
  lemma ReturnsConvention(temp: real, err: Option<Error>, r: Result<real, Error>)
    requires Returns(temp, err, r)
    ensures err.None? <==> r.Success?
    ensures err.None? ==> temp == r.value
    ensures err.Some? ==> temp == 0.0 && err.value == r.error
  {
  }

  /** Stand-in for the OpenWeatherMap access key embedded in the service; no property depends on its value. */
  const OpenWeatherMapKey: string := "OWM_KEY"
  const OpenWeatherMapPrefix: string := "http://api.openweathermap.org/data/2.5/weather?APPID=" + OpenWeatherMapKey + "&q="
  const WeatherUndergroundHost: string := "http://api.wunderground.com/api/"
  const JsonSuffix: string := ".json"

  function WeatherUndergroundPrefix(apiKey: string): string
  {
    WeatherUndergroundHost + apiKey + "/conditions/q/"
  }

  /** The URL an adapter requests for a city; the city is pasted in verbatim. */
  function Url(p: Provider, city: string): (url: string)
  {
    match p
    case OpenWeatherMap => OpenWeatherMapPrefix + city
    case WeatherUnderground(key) => WeatherUndergroundPrefix(key) + city + JsonSuffix
  }

  /** The city a request URL of the adapter's shape asks about, if the URL has that shape. */
  function CityInUrl(p: Provider, url: string): (r: Option<string>)
    ensures r.Some? ==> Url(p, r.value) == url
  {
    match p
    case OpenWeatherMap =>
      var n := |OpenWeatherMapPrefix|;
      if n <= |url| && url[..n] == OpenWeatherMapPrefix then
        assert url == url[..n] + url[n..];
        Some(url[n..])
      else None
    case WeatherUnderground(key) =>
      var pre, n := WeatherUndergroundPrefix(key), |url|;
      if |pre| + |JsonSuffix| <= n && url[..|pre|] == pre && url[n - |JsonSuffix|..] == JsonSuffix then
        assert url == url[..|pre|] + url[|pre|..n - |JsonSuffix|] + url[n - |JsonSuffix|..];
        Some(url[|pre|..n - |JsonSuffix|])
      else None
  }

  /** Every URL an adapter hands to http.Get names the city it was asked about, unchanged. */
  lemma UrlCarriesCity(p: Provider, city: string)
    ensures CityInUrl(p, Url(p, city)) == Some(city)
  {
  }

  /** One adapter never hands http.Get the same URL for two different cities. */
  lemma UrlInjective(p: Provider, c1: string, c2: string)
    requires Url(p, c1) == Url(p, c2)
    ensures c1 == c2
  {
    UrlCarriesCity(p, c1);
    UrlCarriesCity(p, c2);
  }

  /** Offset between the Celsius and the Kelvin scale. */
  const CelsiusOffset: real := 273.15

  /** The canonical (Kelvin) reading for an upstream's decoded temperature field. */
  function Normalise(p: Provider, field: real): (k: real)
    ensures p.OpenWeatherMap? ==> k == field
    ensures p.WeatherUnderground? ==> k - CelsiusOffset == field
  {
    match p
    case OpenWeatherMap => field
    case WeatherUnderground(_) => field + CelsiusOffset
  }

  /** A Weather Underground reading of 0 degrees Celsius becomes 273.15. */
  lemma FreezingPoint(key: string)
    ensures Normalise(WeatherUnderground(key), 0.0) == 273.15
  {
  }

  /**
   * Both adapters land on one scale: the same physical temperature, reported
   * in Kelvin by OpenWeatherMap and in Celsius by Weather Underground, gives
   * the same canonical reading; normalising shifts but never rescales.
   */
  lemma NormaliseAgrees(key: string, kelvin: real, a: real, b: real)
    ensures Normalise(OpenWeatherMap, kelvin) == Normalise(WeatherUnderground(key), kelvin - 273.15) == kelvin
    ensures Normalise(WeatherUnderground(key), a) - Normalise(WeatherUnderground(key), b) == a - b
    ensures Normalise(OpenWeatherMap, a) == a
  {
  }

  /** What an adapter returns for what its request produced. */
  function Reading(p: Provider, f: Fetched): (r: Result<real, Error>)
    ensures r.Success? <==> f.Decoded?
    ensures r.Success? ==> r.value == Normalise(p, f.field)
  {
    match f
    case TransportFailure(m) => Failure(Transport(m))
    case DecodeFailure(m) => Failure(Decode(m))
    case Decoded(x) => Success(Normalise(p, x))
  }

  /**
   * An adapter fails exactly when its request or decoding failed, passes that
   * error on with its message, and otherwise returns the normalised field.
   */
  lemma ReadingOutcome(p: Provider, f: Fetched)
    ensures Reading(p, f).Success? <==> f.Decoded?
    ensures f.TransportFailure? ==> Reading(p, f) == Failure(Transport(f.message))
    ensures f.DecodeFailure? ==> Reading(p, f) == Failure(Decode(f.message))
    ensures f.Decoded? ==> Reading(p, f) == Success(Normalise(p, f.field))
  {
  }

  /**
   * The upstream services as seen from this program: the answer to the n-th
   * call of http.Get overall, for a given URL string, is fixed in advance (it
   * may differ from one call to the next), and every URL handed over is logged.
   */
  class Upstream {
    const answer: (nat, string) -> Fetched
    var requests: seq<string>

    constructor (answer: (nat, string) -> Fetched)
      ensures this.answer == answer && requests == []
    {
      this.answer := answer;
      requests := [];
    }

    /** One call of http.Get on url, with the body it gets back decoded. */
    method Get(url: string) returns (f: Fetched)
      modifies this
      ensures requests == old(requests) + [url]
      ensures f == answer(|old(requests)|, url)
    {
      f := answer(|requests|, url);
      requests := requests + [url];
    }
  }

  /** The reply adapter p gives for a city when its request is the n-th one overall. */
  function Reply(answer: (nat, string) -> Fetched, n: nat, p: Provider, city: string): Result<real, Error>
  {
    Reading(p, answer(n, Url(p, city)))
  }

  /** OpenWeatherMap already reports in Kelvin: the decoded field is returned as it is. */
  method OpenWeatherMapTemperature(net: Upstream, city: string) returns (temp: real, err: Option<Error>)
    modifies net
    ensures net.requests == old(net.requests) + [Url(OpenWeatherMap, city)]
    ensures Returns(temp, err, Reply(net.answer, |old(net.requests)|, OpenWeatherMap, city))
  {
    var f := net.Get(OpenWeatherMapPrefix + city);
    match f
    case TransportFailure(m) => return 0.0, Some(Transport(m));
    case DecodeFailure(m) => return 0.0, Some(Decode(m));
    case Decoded(kelvin) => return kelvin, None;
  }

  /** Weather Underground reports in Celsius: 273.15 is added to the decoded field. */
  method WeatherUndergroundTemperature(net: Upstream, apiKey: string, city: string) returns (temp: real, err: Option<Error>)
    modifies net
    ensures net.requests == old(net.requests) + [Url(WeatherUnderground(apiKey), city)]
    ensures Returns(temp, err, Reply(net.answer, |old(net.requests)|, WeatherUnderground(apiKey), city))
  {
    var f := net.Get(WeatherUndergroundHost + apiKey + "/conditions/q/" + city + JsonSuffix);
    match f
    case TransportFailure(m) => return 0.0, Some(Transport(m));
    case DecodeFailure(m) => return 0.0, Some(Decode(m));
    case Decoded(celsius) =>
      var kelvin := celsius + CelsiusOffset;
      return kelvin, None;
  }

  /** Asks whichever adapter p is; it hands http.Get exactly one URL, p's URL for the city. */
  method Temperature(net: Upstream, p: Provider, city: string) returns (temp: real, err: Option<Error>)
    modifies net
    ensures net.requests == old(net.requests) + [Url(p, city)]
    ensures Returns(temp, err, Reply(net.answer, |old(net.requests)|, p, city))
  {
    match p
    case OpenWeatherMap =>
      temp, err := OpenWeatherMapTemperature(net, city);
    case WeatherUnderground(key) =>
      temp, err := WeatherUndergroundTemperature(net, key, city);
  }
}
