/**
 * The aggregation rule: ask every provider, in list order, for the same
 * city; stop at the first error and return it unchanged; otherwise return
 * the mean of the readings.
 */
module Aggregation {
  import opened Wrappers
  import opened Readings
  import opened Providers

  /** The position of the first failed reply, or |rs| when none failed. */
  function FirstFailure(rs: seq<Result<real, Error>>): (i: nat)
    ensures i <= |rs|
    ensures forall j :: 0 <= j < i ==> rs[j].Success?
    ensures i < |rs| ==> rs[i].Failure?
  {
    if rs == [] then 0
    else if rs[0].Failure? then 0
    else 1 + FirstFailure(rs[1..])
  }

  predicate AllSucceed(rs: seq<Result<real, Error>>)
  {
    forall j :: 0 <= j < |rs| ==> rs[j].Success?
  }

  /** The readings carried by replies that all succeeded. */
  function Values(rs: seq<Result<real, Error>>): (xs: seq<real>)
    requires AllSucceed(rs)
    ensures |xs| == |rs|
    ensures forall j :: 0 <= j < |rs| ==> rs[j] == Success(xs[j])
  {
    seq(|rs|, j requires 0 <= j < |rs| => rs[j].value)
  }

  /** The replies of providers that all succeed with the given readings. */
  function Successes(xs: seq<real>): (rs: seq<Result<real, Error>>)
    ensures |rs| == |xs| && AllSucceed(rs) && Values(rs) == xs
  {
    seq(|xs|, j requires 0 <= j < |xs| => Success(xs[j]))
  }

  /** How many providers the fold asks: all of them, or up to and including the first that fails. */
  function Queried(rs: seq<Result<real, Error>>): nat
  {
    var i := FirstFailure(rs);
    if i < |rs| then i + 1 else |rs|
  }

  /**
   * The aggregate of the providers' replies, in list order: the error of the
   * first that failed, unchanged; a configuration error for no providers;
   * otherwise the mean of all the readings.
   */
  function Aggregate(rs: seq<Result<real, Error>>): (r: Result<real, Error>)
    ensures r.Success? <==> rs != [] && AllSucceed(rs)
  {
    var i := FirstFailure(rs);
    if i < |rs| then Failure(rs[i].error)
    else if rs == [] then Failure(NoProviders)
    else Success(Mean(Values(rs)))
  }

  /** The reply each provider in ps gives for the city, the first one asked as request number start. */
  function Replies(answer: (nat, string) -> Fetched, start: nat, ps: seq<Provider>, city: string): (rs: seq<Result<real, Error>>)
    ensures |rs| == |ps|
  {
    seq(|ps|, i requires 0 <= i < |ps| => Reply(answer, start + i, ps[i], city))
  }

  /** The URLs the providers in ps hand to http.Get for the city, in order. */
  function Urls(ps: seq<Provider>, city: string): (us: seq<string>)
    ensures |us| == |ps|
  {
    if ps == [] then [] else Urls(ps[..|ps| - 1], city) + [Url(ps[|ps| - 1], city)]
  }

  /** A failure preceded only by successes decides the aggregate, and nobody after it is asked. */
  lemma FailureIsFirst(rs: seq<Result<real, Error>>, j: nat)
    requires j < |rs| && rs[j].Failure?
    requires forall i :: 0 <= i < j ==> rs[i].Success?
    ensures Aggregate(rs) == Failure(rs[j].error)
    ensures Queried(rs) == j + 1
  {
  }

  /** The aggregate fails if and only if there are no providers or some provider fails. */
  lemma AggregateFailsIff(rs: seq<Result<real, Error>>)
    ensures Aggregate(rs).Failure? <==> rs == [] || exists j :: 0 <= j < |rs| && rs[j].Failure?
    ensures Aggregate(rs).Failure? && rs != [] ==> exists j :: 0 <= j < |rs| && rs[j] == Aggregate(rs)
  {
  }

  /** When every provider succeeds, the aggregate is the sum of the readings over the provider count. */
  lemma AllSucceedGivesMean(xs: seq<real>)
    ensures Aggregate(Successes(xs)) == if xs == [] then Failure(NoProviders) else Success(Sum(xs) / |xs| as real)
    ensures Queried(Successes(xs)) == |xs|
  {
  }

  /** One provider: the aggregate is that provider's reply, exactly. */
  lemma SingleProvider(r: Result<real, Error>)
    ensures Aggregate([r]) == r
  {
    if r.Success? {
      var xs := Values([r]);
      assert xs == [r.value];
      assert xs[..0] == [];
      assert Sum(xs) == r.value;
    }
  }

  /** Reordering providers that all succeed leaves the aggregate unchanged. */
  lemma OrderIndependent(xs: seq<real>, ys: seq<real>)
    requires multiset(xs) == multiset(ys)
    ensures Aggregate(Successes(xs)) == Aggregate(Successes(ys))
  {
    if xs != [] {
      MeanPermutation(xs, ys);
    } else {
      assert |ys| == |multiset(ys)| == 0;
    }
  }

  /** A successful aggregate lies between the lowest and the highest reading. */
  lemma AggregateWithinReadings(rs: seq<Result<real, Error>>, lo: real, hi: real)
    requires Aggregate(rs).Success?
    requires forall j :: 0 <= j < |rs| && rs[j].Success? ==> lo <= rs[j].value <= hi
    ensures lo <= Aggregate(rs).value <= hi
  {
    var xs := Values(rs);
    forall j | 0 <= j < |xs|
      ensures lo <= xs[j] <= hi
    {
      assert rs[j].Success?;
    }
    MeanBounds(xs, lo, hi);
  }

  /** Replies of providers that are never asked cannot change the aggregate. */
  lemma UnqueriedIgnored(rs: seq<Result<real, Error>>, rs': seq<Result<real, Error>>)
    requires |rs| == |rs'|
    requires rs[..Queried(rs)] == rs'[..Queried(rs)]
    ensures Queried(rs') == Queried(rs)
    ensures Aggregate(rs') == Aggregate(rs)
  {
    var i := FirstFailure(rs);
    if i < |rs| {
      assert rs'[i] == rs[..Queried(rs)][i];
      forall k | 0 <= k < i
        ensures rs'[k].Success?
      {
        assert rs'[k] == rs[..Queried(rs)][k];
      }
      FailureIsFirst(rs', i);
    } else {
      assert rs == rs[..Queried(rs)];
      assert rs' == rs'[..Queried(rs)];
    }
  }

  /** Two providers answering 300.0 and 280.0 average to 290.0. */
  lemma TwoProvidersExample()
    ensures Aggregate([Success(300.0), Success(280.0)]) == Success(290.0)
  {
    var rs: seq<Result<real, Error>> := [Success(300.0), Success(280.0)];
    assert Values(rs) == [300.0, 280.0];
    assert Values(rs)[..1] == [300.0];
    assert [300.0][..0] == [];
  }

  lemma UrlsStep(ps: seq<Provider>, city: string, i: nat)
    requires i < |ps|
    ensures Urls(ps[..i + 1], city) == Urls(ps[..i], city) + [Url(ps[i], city)]
  {
    assert ps[..i + 1][..i] == ps[..i];
  }

  /** The running sum after one more successful reply. */
  lemma SumStep(rs: seq<Result<real, Error>>, i: nat)
    requires i < |rs| && forall j :: 0 <= j <= i ==> rs[j].Success?
    ensures Sum(Values(rs[..i + 1])) == Sum(Values(rs[..i])) + rs[i].value
  {
    assert Values(rs[..i + 1])[..i] == Values(rs[..i]);
  }

  /**
   * What a fold over the providers ps for the city promises, starting from
   * the request log before: it returns the aggregate of the replies in Go's
   * value-and-error form, and the log after holds exactly the requests of the
   * providers it asked, in list order.
   */
  predicate Aggregated(answer: (nat, string) -> Fetched, before: seq<string>, after: seq<string>,
                       ps: seq<Provider>, city: string, temp: real, err: Option<Error>)
  {
    var rs := Replies(answer, |before|, ps, city);
    Returns(temp, err, Aggregate(rs)) && after == before + Urls(ps[..Queried(rs)], city)
  }

  /**
   * The fold's state after asking the first i providers: each of them
   * succeeded, each sent its request in order, and sum is the sum of their
   * readings.
   */
  predicate Progress(answer: (nat, string) -> Fetched, before: seq<string>, sent: seq<string>,
                     ps: seq<Provider>, city: string, i: nat, sum: real)
  {
    var rs := Replies(answer, |before|, ps, city);
    && i <= |ps|
    && sent == before + Urls(ps[..i], city)
    && (forall j :: 0 <= j < i ==> rs[j].Success?)
    && sum == Sum(Values(rs[..i]))
  }

  /** One more provider succeeded: its reading joins the sum and its request the log. */
  lemma ProgressStep(answer: (nat, string) -> Fetched, before: seq<string>, sent: seq<string>,
                     ps: seq<Provider>, city: string, i: nat, sum: real, k: real)
    requires Progress(answer, before, sent, ps, city, i, sum) && i < |ps|
    requires Returns(k, None, Reply(answer, |sent|, ps[i], city))
    ensures Progress(answer, before, sent + [Url(ps[i], city)], ps, city, i + 1, sum + k)
  {
    var rs := Replies(answer, |before|, ps, city);
    assert rs[i] == Success(k) by {
      assert |sent| == |before| + i;
    }
    RequestsStep(before, sent, ps, city, i);
    SumStep(rs, i);
  }

  /** Stopping at a failure preceded only by successes keeps the fold's promise. */
  lemma StopAtFailure(answer: (nat, string) -> Fetched, before: seq<string>, sent: seq<string>,
                      ps: seq<Provider>, city: string, i: nat, sum: real, e: Error)
    requires Progress(answer, before, sent, ps, city, i, sum) && i < |ps|
    requires Reply(answer, |sent|, ps[i], city) == Failure(e)
    ensures Aggregated(answer, before, sent + [Url(ps[i], city)], ps, city, 0.0, Some(e))
  {
    var rs := Replies(answer, |before|, ps, city);
    assert rs[i] == Failure(e) by {
      assert |sent| == |before| + i;
    }
    FailureIsFirst(rs, i);
    RequestsStep(before, sent, ps, city, i);
  }

  /** The log after one more request. */
  lemma RequestsStep(before: seq<string>, sent: seq<string>, ps: seq<Provider>, city: string, i: nat)
    requires i < |ps| && sent == before + Urls(ps[..i], city)
    ensures sent + [Url(ps[i], city)] == before + Urls(ps[..i + 1], city)
  {
    UrlsStep(ps, city, i);
  }

  /** With no providers the fold returns the configuration error and sends nothing. */
  lemma NoProvidersFinish(answer: (nat, string) -> Fetched, before: seq<string>, sent: seq<string>, city: string, sum: real)
    requires Progress(answer, before, sent, [], city, 0, sum)
    ensures Aggregated(answer, before, sent, [], city, 0.0, Some(NoProviders))
  {
  }

  /** Every provider succeeded: the fold returns the sum over the count. */
  lemma FinishWithMean(answer: (nat, string) -> Fetched, before: seq<string>, sent: seq<string>,
                       ps: seq<Provider>, city: string, sum: real)
    requires Progress(answer, before, sent, ps, city, |ps|, sum) && ps != []
    ensures Aggregated(answer, before, sent, ps, city, sum / |ps| as real, None)
  {
    var rs := Replies(answer, |before|, ps, city);
    assert rs[..|ps|] == rs;
  }

  /** A multiWeatherProvider: an ordered list of providers, itself answerable like one. */
  datatype MultiWeatherProvider = MultiWeatherProvider(providers: seq<Provider>)
  {
    /**
     * Asks each provider in turn for the city, keeping a running sum; the
     * first error is returned at once, otherwise the sum over the count.
     */
    method Temperature(net: Upstream, city: string) returns (temp: real, err: Option<Error>)
      modifies net
      ensures Aggregated(net.answer, old(net.requests), net.requests, providers, city, temp, err)
    {
      var sum := 0.0;
      for i := 0 to |providers|
        invariant Progress(net.answer, old(net.requests), net.requests, providers, city, i, sum)
      {
        ghost var sent := net.requests;
        var k, e := Providers.Temperature(net, providers[i], city);
        if e.Some? {
          StopAtFailure(net.answer, old(net.requests), sent, providers, city, i, sum, e.value);
          return 0.0, e;
        }
        ProgressStep(net.answer, old(net.requests), sent, providers, city, i, sum, k);
        sum := sum + k;
      }
      if |providers| == 0 {
        NoProvidersFinish(net.answer, old(net.requests), net.requests, city, sum);
        return 0.0, Some(NoProviders);
      }
      FinishWithMean(net.answer, old(net.requests), net.requests, providers, city, sum);
      return sum / |providers| as real, None;
    }
  }

  /** The variadic form of the same fold: temperature(city, providers...). */
  method Temperature(net: Upstream, city: string, providers: seq<Provider>) returns (temp: real, err: Option<Error>)
    modifies net
    ensures Aggregated(net.answer, old(net.requests), net.requests, providers, city, temp, err)
  {
    var sum := 0.0;
    for i := 0 to |providers|
      invariant Progress(net.answer, old(net.requests), net.requests, providers, city, i, sum)
    {
      ghost var sent := net.requests;
      var k, e := Providers.Temperature(net, providers[i], city);
      if e.Some? {
        StopAtFailure(net.answer, old(net.requests), sent, providers, city, i, sum, e.value);
        return 0.0, e;
      }
      ProgressStep(net.answer, old(net.requests), sent, providers, city, i, sum, k);
      sum := sum + k;
    }
    if |providers| == 0 {
      NoProvidersFinish(net.answer, old(net.requests), net.requests, city, sum);
      return 0.0, Some(NoProviders);
    }
    FinishWithMean(net.answer, old(net.requests), net.requests, providers, city, sum);
    return sum / |providers| as real, None;
  }

  /**
   * The two forms agree: run against upstreams that answer alike and have
   * seen the same requests, they return the same result and send the same
   * requests.
   */
  method VariadicMatchesMulti(net1: Upstream, net2: Upstream, city: string, providers: seq<Provider>)
    returns (t1: real, e1: Option<Error>, t2: real, e2: Option<Error>)
    requires net1 != net2 && net1.answer == net2.answer && net1.requests == net2.requests
    modifies net1, net2
    ensures t1 == t2 && e1 == e2 && net1.requests == net2.requests
  {
    t1, e1 := MultiWeatherProvider(providers).Temperature(net1, city);
    t2, e2 := Temperature(net2, city, providers);
  }
}
