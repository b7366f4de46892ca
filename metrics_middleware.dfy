/** The request metrics middleware of gateways/api/src/middlewares/metrics.rs.
    For every request whose inner service returns a response, it observes the
    elapsed whole milliseconds in the duration family and increments the count
    family, both under the one-pair label sequence [(method, path)]; when the
    inner service fails, neither family changes. The inner service's outcome
    and the elapsed time are inputs. */
module MetricsLayer {
  import opened Http
  import opened MetricFamilies

  /** The label sequence both families are keyed by: the method and the raw path, nothing else. */
  function Key(req: HttpRequest): (k: Labels)
    ensures |k| == 1 && k[0] == (req.httpMethod, req.path)
  {
    [(req.httpMethod, req.path)]
  }

  /** The contents of the two families at one moment. */
  datatype Tables = Tables(counts: map<Labels, nat>, series: map<Labels, Histogram>)

  const EMPTY: Tables := Tables(map[], map[])

  /** What the middleware sees of one request: its head, whether the inner service
      returned a response, and the elapsed milliseconds. */
  datatype Outcome = Outcome(request: HttpRequest, succeeded: bool, elapsedMs: nat)

  /** One call's effect on the families. */
  function Record(t: Tables, bounds: seq<real>, o: Outcome): (r: Tables)
    ensures !o.succeeded ==> r == t
    ensures o.succeeded ==>
      && CountOf(r.counts, Key(o.request)) == CountOf(t.counts, Key(o.request)) + 1
      && ObservationsOf(r.series, Key(o.request)) == ObservationsOf(t.series, Key(o.request)) + [o.elapsedMs]
      && r.counts.Keys == t.counts.Keys + {Key(o.request)}
      && r.series.Keys == t.series.Keys + {Key(o.request)}
    ensures o.succeeded && Key(o.request) !in t.series ==> r.series[Key(o.request)].bounds == bounds
    ensures forall k | k in t.counts && k != Key(o.request) :: k in r.counts && r.counts[k] == t.counts[k]
    ensures forall k | k in t.series && k != Key(o.request) :: k in r.series && r.series[k] == t.series[k]
  {
    if o.succeeded then
      var key := Key(o.request);
      Tables(Incremented(t.counts, key), Observed(t.series, bounds, key, o.elapsedMs))
    else t
  }

  /** The families after a sequence of calls, starting from empty families. */
  function Replay(bounds: seq<real>, os: seq<Outcome>): Tables
  {
    if os == [] then EMPTY else Record(Replay(bounds, os[..|os| - 1]), bounds, os[|os| - 1])
  }

  /** The elapsed times of the successful calls labelled key, in call order. */
  function Successes(os: seq<Outcome>, key: Labels): seq<nat>
  {
    if os == [] then []
    else
      var o := os[|os| - 1];
      Successes(os[..|os| - 1], key) + (if o.succeeded && Key(o.request) == key then [o.elapsedMs] else [])
  }

  /** The label sequences of the successful calls. */
  function SuccessKeys(os: seq<Outcome>): set<Labels>
  {
    if os == [] then {}
    else
      var o := os[|os| - 1];
      SuccessKeys(os[..|os| - 1]) + (if o.succeeded then {Key(o.request)} else {})
  }

  /** The two families describe the same series: the same keys, each count equal to the
      number of observations, every series built with the family's bounds. */
  ghost predicate InSync(t: Tables, bounds: seq<real>)
  {
    && t.counts.Keys == t.series.Keys
    && forall k | k in t.counts :: t.counts[k] == |t.series[k].observations| && t.series[k].bounds == bounds
  }

  lemma RecordKeepsInSync(t: Tables, bounds: seq<real>, o: Outcome)
    requires InSync(t, bounds)
    ensures InSync(Record(t, bounds, o), bounds)
  {
  }

  /** The two updates of one call are separate steps: between the observation and the
      increment, the families are out of step for the call's key. */
  lemma BetweenUpdatesOutOfStep(t: Tables, bounds: seq<real>, o: Outcome)
    requires InSync(t, bounds) && o.succeeded
    ensures !InSync(Tables(t.counts, Observed(t.series, bounds, Key(o.request), o.elapsedMs)), bounds)
  {
    var key := Key(o.request);
    var halfway := Tables(t.counts, Observed(t.series, bounds, key, o.elapsedMs));
    if key in t.counts {
      assert |halfway.series[key].observations| == t.counts[key] + 1;
    } else {
      assert key in halfway.series.Keys && key !in halfway.counts.Keys;
    }
  }

  /** Each series holds exactly the successful calls with its label sequence, in order,
      and its count is their number. */
  lemma {:induction false} ReplayContents(bounds: seq<real>, os: seq<Outcome>, key: Labels)
    ensures ObservationsOf(Replay(bounds, os).series, key) == Successes(os, key)
    ensures CountOf(Replay(bounds, os).counts, key) == |Successes(os, key)|
  {
    if os != [] {
      ReplayContents(bounds, os[..|os| - 1], key);
    }
  }

  /** Starting from empty families, the two families stay in step. */
  lemma {:induction false} ReplayInSync(bounds: seq<real>, os: seq<Outcome>)
    ensures InSync(Replay(bounds, os), bounds)
  {
    if os != [] {
      ReplayInSync(bounds, os[..|os| - 1]);
      RecordKeepsInSync(Replay(bounds, os[..|os| - 1]), bounds, os[|os| - 1]);
    }
  }

  /** Series exist exactly for the (method, path) pairs of successful calls: the number of
      series grows with the distinct pairs requested, not with the number of requests. */
  lemma {:induction false} ReplayKeys(bounds: seq<real>, os: seq<Outcome>)
    ensures Replay(bounds, os).counts.Keys == SuccessKeys(os)
    ensures Replay(bounds, os).series.Keys == SuccessKeys(os)
  {
    if os != [] {
      ReplayKeys(bounds, os[..|os| - 1]);
    }
  }

  /** Calls whose inner service failed leave no trace. */
  lemma {:induction false} FailuresLeaveNoTrace(bounds: seq<real>, os: seq<Outcome>, o: Outcome)
    requires !o.succeeded
    ensures Replay(bounds, os + [o]) == Replay(bounds, os)
  {
    assert (os + [o])[..|os + [o]| - 1] == os;
  }

  /** The Transform: holds the two families it is given. */
  class Metrics {
    const requestDuration: HistogramFamily
    const requestCount: CounterFamily

    /** Metrics::new: the duration family first, then the count family. */
    constructor (requestDuration: HistogramFamily, requestCount: CounterFamily)
      ensures this.requestDuration == requestDuration && this.requestCount == requestCount
    {
      this.requestDuration := requestDuration;
      this.requestCount := requestCount;
    }

    /** Transform::new_transform: always succeeds; the middleware shares the same families. */
    method NewTransform<S>(service: S) returns (r: Result<MetricsMiddleware<S>, ()>)
      ensures r.Ok? && fresh(r.value)
      ensures r.value.service == service
      ensures r.value.requestDuration == requestDuration && r.value.requestCount == requestCount
    {
      var mw := new MetricsMiddleware(service, requestDuration, requestCount);
      r := Ok(mw);
    }
  }

  /** The Service built around an inner service `S`. */
  class MetricsMiddleware<S> {
    const service: S
    const requestDuration: HistogramFamily
    const requestCount: CounterFamily

    constructor (service: S, requestDuration: HistogramFamily, requestCount: CounterFamily)
      ensures this.service == service
      ensures this.requestDuration == requestDuration && this.requestCount == requestCount
    {
      this.service := service;
      this.requestDuration := requestDuration;
      this.requestCount := requestCount;
    }

    /** The current contents of the two shared families. */
    function Snapshot(): Tables
      reads requestCount, requestDuration
    {
      Tables(requestCount.counts, requestDuration.series)
    }

    /** MetricsMiddleware::call, once the inner service has answered after elapsedMs milliseconds:
        the inner result is returned as it is, and the families change as Record says. */
    method Call<B>(req: ServiceRequest, inner: Result<ServiceResponse<B>, Error>, elapsedMs: nat)
      returns (r: Result<ServiceResponse<B>, Error>)
      requires requestDuration.Valid()
      modifies requestCount, requestDuration
      ensures requestDuration.Valid()
      ensures r == inner
      ensures Snapshot() == Record(old(Snapshot()), requestDuration.bounds, Outcome(req.request, inner.Ok?, elapsedMs))
    {
      var path := req.request.path;
      var httpMethod := req.request.httpMethod;
      if inner.Err? {
        return inner;
      }
      requestDuration.Observe([(httpMethod, path)], elapsedMs);
      requestCount.Inc([(httpMethod, path)]);
      r := inner;
    }
  }
}
