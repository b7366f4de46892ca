/** ApiMetrics::new of gateways/api/src/metrics.rs: it creates an empty request
    counter family and a request duration histogram family whose histograms all
    use one fixed list of bucket bounds, registers the two in that order, and
    returns the same two families. Bounds are exact reals. */
module ApiMetrics {
  import opened MetricFamilies

  /** The bucket bounds, in milliseconds. */
  const DURATION_BUCKETS: seq<real> :=
    [1.0, 2.5, 5.0, 10.0, 25.0, 50.0, 75.0, 100.0, 250.0, 500.0, 750.0, 1000.0, 1250.0, 1500.0, 2000.0]

  const REQUEST_COUNT_NAME: string := "request_count"
  const REQUEST_COUNT_HELP: string := "Number of requests received"
  const REQUEST_DURATION_NAME: string := "request_duration_ms"
  const REQUEST_DURATION_HELP: string := "Request duration"

  /** Every bound is below every later one. */
  predicate StrictlyIncreasing(s: seq<real>)
  {
    forall i, j | 0 <= i < j < |s| :: s[i] < s[j]
  }

  /** The bucket list has fifteen bounds from 1 to 2000, strictly increasing. */
  lemma BucketsWellFormed()
    ensures |DURATION_BUCKETS| == 15
    ensures DURATION_BUCKETS[0] == 1.0 && DURATION_BUCKETS[14] == 2000.0
    ensures StrictlyIncreasing(DURATION_BUCKETS)
  {
  }

  /** The two families the gateway measures requests with. */
  datatype ApiMetrics = ApiMetrics(requestCount: CounterFamily, requestDuration: HistogramFamily)

  /** ApiMetrics::new: two fresh families, registered as request_count then request_duration_ms. */
  method New(registry: Registry) returns (m: ApiMetrics)
    modifies registry
    ensures fresh(m.requestCount) && fresh(m.requestDuration)
    ensures m.requestCount.counts == map[]
    ensures m.requestDuration.Valid() && m.requestDuration.series == map[]
    ensures m.requestDuration.bounds == DURATION_BUCKETS
    ensures registry.entries == old(registry.entries) + [
      Registration(REQUEST_COUNT_NAME, REQUEST_COUNT_HELP, CounterMetric(m.requestCount)),
      Registration(REQUEST_DURATION_NAME, REQUEST_DURATION_HELP, HistogramMetric(m.requestDuration))
    ]
  {
    var requestCount := new CounterFamily();
    var requestDuration := new HistogramFamily.NewWithConstructor(DURATION_BUCKETS);
    registry.Register(REQUEST_COUNT_NAME, REQUEST_COUNT_HELP, CounterMetric(requestCount));
    registry.Register(REQUEST_DURATION_NAME, REQUEST_DURATION_HELP, HistogramMetric(requestDuration));
    m := ApiMetrics(requestCount, requestDuration);
  }
}
