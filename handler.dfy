/**
 * The /weather/ handler: take the city from the request path, aggregate the
 * configured providers for it and choose the response.
 */
module Handler {
  import opened Wrappers
  import opened Providers
  import opened Aggregation

  /** The position of the first occurrence of c in s. */
  function IndexOf(s: string, c: char): (i: nat)
    requires c in s
    ensures i < |s| && s[i] == c && c !in s[..i]
  {
    if s[0] == c then 0
    else
      var i := 1 + IndexOf(s[1..], c);
      assert s[..i] == [s[0]] + s[1..][..i - 1];
      i
  }

  /** The first occurrence is the one with none before it. */
  lemma IndexOfAt(s: string, c: char, k: nat)
    requires k < |s| && s[k] == c && c !in s[..k]
    ensures IndexOf(s, c) == k
  {
    var i := IndexOf(s, c);
    forall j | 0 <= j < k
      ensures s[j] != c
    {
      assert s[..k][j] == s[j];
    }
    forall j | 0 <= j < i
      ensures s[j] != c
    {
      assert s[..i][j] == s[j];
    }
  }

  /**
   * strings.SplitN with a one-character separator: at most n pieces, split at
   * the first n - 1 separators; the last piece is the unsplit rest.
   */
  function SplitN(s: string, sep: char, n: nat): (parts: seq<string>)
    ensures n == 0 ==> parts == []
    ensures n > 0 ==> 1 <= |parts| <= n
    ensures forall k :: 0 <= k < |parts| - 1 ==> sep !in parts[k]
    ensures 0 < |parts| < n ==> sep !in parts[|parts| - 1]
    decreases n
  {
    if n == 0 then []
    else if n == 1 || sep !in s then [s]
    else
      var i := IndexOf(s, sep);
      [s[..i]] + SplitN(s[i + 1..], sep, n - 1)
  }

  /** Splitting at a separator with none before it. */
  lemma SplitAtFirst(s: string, sep: char, n: nat, k: nat)
    requires n > 1 && k < |s| && s[k] == sep && sep !in s[..k]
    ensures SplitN(s, sep, n) == [s[..k]] + SplitN(s[k + 1..], sep, n - 1)
  {
    IndexOfAt(s, sep, k);
  }

  /** The pieces put back together with the separator between each two. */
  function Join(parts: seq<string>, sep: char): string
  {
    if parts == [] then ""
    else if |parts| == 1 then parts[0]
    else parts[0] + [sep] + Join(parts[1..], sep)
  }

  /** Splitting loses nothing: joining the pieces gives back the string. */
  lemma {:induction false} SplitNJoin(s: string, sep: char, n: nat)
    requires n > 0
    ensures Join(SplitN(s, sep, n), sep) == s
    decreases n
  {
    if n > 1 && sep in s {
      var i := IndexOf(s, sep);
      SplitNJoin(s[i + 1..], sep, n - 1);
      assert s == s[..i] + [sep] + s[i + 1..];
      assert SplitN(s, sep, n)[1..] == SplitN(s[i + 1..], sep, n - 1);
    }
  }

  /**
   * The city of a request path: everything after the second '/', further
   * slashes included; a path with fewer than two slashes has no city.
   */
  function CityOf(path: string): (r: Result<string, Error>)
    ensures r.Failure? ==> r.error == MalformedPath(path)
    ensures r.Success? ==> |r.value| < |path| && path[|path| - |r.value|..] == r.value
  {
    var parts := SplitN(path, '/', 3);
    if |parts| < 3 then Failure(MalformedPath(path))
    else
      SplitNJoin(path, '/', 3);
      assert path == parts[0] + ['/'] + (parts[1] + ['/'] + parts[2]);
      Success(parts[2])
  }

  /** A path has a city if and only if it holds at least two slashes. */
  lemma CityOfIff(path: string)
    ensures CityOf(path).Success? <==> multiset(path)['/'] >= 2
    ensures CityOf(path).Failure? ==> CityOf(path).error == MalformedPath(path)
  {
    var parts := SplitN(path, '/', 3);
    SplitNJoin(path, '/', 3);
    if |parts| == 1 {
      assert path == parts[0];
    } else if |parts| == 2 {
      assert path == parts[0] + ['/'] + parts[1];
      assert multiset(path) == multiset(parts[0]) + multiset{'/'} + multiset(parts[1]);
    } else {
      assert path == parts[0] + ['/'] + (parts[1] + ['/'] + parts[2]);
      assert multiset(path) == multiset(parts[0]) + multiset{'/'} + multiset(parts[1]) + multiset{'/'} + multiset(parts[2]);
    }
  }

  /** Whatever follows the second slash is the city, exactly. */
  lemma CityAfterSecondSlash(a: string, b: string, c: string)
    requires '/' !in a && '/' !in b
    ensures CityOf(a + "/" + b + "/" + c) == Success(c)
  {
    var rest := b + "/" + c;
    assert a + "/" + b + "/" + c == a + "/" + rest;
    SplitOnce(a, rest, 3);
    SplitOnce(b, c, 2);
    assert SplitN(c, '/', 1) == [c];
  }

  /** A piece without a separator, then the separator: the piece comes off first. */
  lemma SplitOnce(a: string, rest: string, n: nat)
    requires '/' !in a && n > 1
    ensures SplitN(a + "/" + rest, '/', n) == [a] + SplitN(rest, '/', n - 1)
  {
    var s := a + "/" + rest;
    assert s[..|a|] == a && s[|a| + 1..] == rest;
    SplitAtFirst(s, '/', n, |a|);
  }

  /** Every path the /weather/ route receives yields the rest of the path as the city. */
  lemma WeatherRouteCity(rest: string)
    ensures CityOf("/weather/" + rest) == Success(rest)
  {
    assert "/weather/" + rest == "" + "/" + "weather" + "/" + rest;
    CityAfterSecondSlash("", "weather", rest);
  }

  /** The providers the service is configured with at start-up. */
  const Configured: seq<Provider> := [OpenWeatherMap, WeatherUnderground(WeatherUndergroundKey)]

  /**
   * The service is always configured with both providers, so an empty list's
   * configuration error never reaches a client: every failure it reports is
   * an upstream's transport or decode error.
   */
  lemma ConfiguredNeverEmpty(answer: (nat, string) -> Fetched, n: nat, city: string)
    ensures |Configured| == 2 && Configured[0].OpenWeatherMap? && Configured[1].WeatherUnderground?
    ensures Aggregate(Replies(answer, n, Configured, city)).Failure? ==>
              Aggregate(Replies(answer, n, Configured, city)).error.Transport? ||
              Aggregate(Replies(answer, n, Configured, city)).error.Decode?
  {
  }

  /** Stand-in for the Weather Underground access key embedded in the service; no property depends on its value. */
  const WeatherUndergroundKey: string := "WU_KEY"

  /** The response the handler chooses; the elapsed-time field is not modelled. */
  datatype Response =
    | Json(city: string, temp: real)   // 200 with {city, temp, took}
    | ServerError(err: Error)          // 500 with the error's text
    | BadRequest(err: Error)           // the path had no city segment

  /** The response for an aggregate outcome. */
  function Respond(city: string, r: Result<real, Error>): (resp: Response)
    ensures resp.Json? <==> r.Success?
    ensures r.Success? ==> resp == Json(city, r.value)
    ensures r.Failure? ==> resp == ServerError(r.error)
  {
    match r
    case Success(t) => Json(city, t)
    case Failure(e) => ServerError(e)
  }

  /**
   * Handles GET on a /weather/ path: a path without a city is refused before
   * any upstream is asked; otherwise the providers are aggregated for the city
   * and their failure becomes a server error.
   */
  method ServeWeather(net: Upstream, mw: MultiWeatherProvider, path: string) returns (resp: Response)
    modifies net
    ensures CityOf(path).Failure? ==> resp == BadRequest(CityOf(path).error) && net.requests == old(net.requests)
    ensures CityOf(path).Success? ==>
              var city := CityOf(path).value;
              var rs := Replies(net.answer, |old(net.requests)|, mw.providers, city);
              resp == Respond(city, Aggregate(rs)) &&
              net.requests == old(net.requests) + Urls(mw.providers[..Queried(rs)], city)
  {
    var parts := SplitN(path, '/', 3);
    if |parts| < 3 {
      return BadRequest(MalformedPath(path));
    }
    var city := parts[2];
    var temp, err := mw.Temperature(net, city);
    if err.Some? {
      return ServerError(err.value);
    }
    return Json(city, temp);
  }

  /**
   * End to end with the configured providers: OpenWeatherMap reporting 300 K
   * and Weather Underground reporting 6.85 degrees Celsius give 290 K.
   */
  lemma ConfiguredExample(answer: (nat, string) -> Fetched)
    requires answer(0, Url(Configured[0], "testcity")) == Decoded(300.0)
    requires answer(1, Url(Configured[1], "testcity")) == Decoded(6.85)
    ensures Aggregate(Replies(answer, 0, Configured, "testcity")) == Success(290.0)
  {
    var rs := Replies(answer, 0, Configured, "testcity");
    assert rs == [Success(300.0), Success(280.0)];
    TwoProvidersExample();
  }
}
