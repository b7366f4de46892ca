/** The parts of prometheus_client the gateway uses, reduced to what the
    gateway relies on: a Family is a table from a label sequence to one
    series, created on first use by `get_or_create`; a Counter's `inc` adds
    one; a Histogram's `observe` records one value; a Registry keeps the
    (name, help, metric) triples it was given, in order. Families are shared
    objects (clones of a Family share its table), so they are classes here.
    Bucket counting and text encoding are not part of this model. */
module MetricFamilies {

  /** A metric's label set: (label name, label value) pairs in order. */
  type Labels = seq<(string, string)>

  /** One histogram series: the bucket bounds it was built with and the values observed, in order. */
  datatype Histogram = Histogram(bounds: seq<real>, observations: seq<nat>)

  /** The count of a series; a series not yet created reads as 0. */
  function CountOf(counts: map<Labels, nat>, key: Labels): nat
  {
    if key in counts then counts[key] else 0
  }

  /** The observations of a series; a series not yet created has none. */
  function ObservationsOf(series: map<Labels, Histogram>, key: Labels): seq<nat>
  {
    if key in series then series[key].observations else []
  }

  /** get_or_create(key).inc(): the series for key goes up by one, created at 0 if absent. */
  function Incremented(counts: map<Labels, nat>, key: Labels): (r: map<Labels, nat>)
    ensures CountOf(r, key) == CountOf(counts, key) + 1
    ensures r.Keys == counts.Keys + {key}
    ensures forall k | k in counts && k != key :: r[k] == counts[k]
  {
    counts[key := CountOf(counts, key) + 1]
  }

  /** get_or_create(key).observe(v): v is appended to the series for key, which is created
      empty with the family's bounds if absent. */
  function Observed(series: map<Labels, Histogram>, bounds: seq<real>, key: Labels, v: nat): (r: map<Labels, Histogram>)
    ensures ObservationsOf(r, key) == ObservationsOf(series, key) + [v]
    ensures r.Keys == series.Keys + {key}
    ensures forall k | k in series && k != key :: r[k] == series[k]
    ensures r[key].bounds == if key in series then series[key].bounds else bounds
  {
    var h := if key in series then series[key] else Histogram(bounds, []);
    series[key := Histogram(h.bounds, h.observations + [v])]
  }

  /** Family<Labels, Counter>. */
  class CounterFamily {
    var counts: map<Labels, nat>

    /** Family::default: no series yet. */
    constructor ()
      ensures counts == map[]
    {
      counts := map[];
    }

    method Inc(key: Labels)
      modifies this
      ensures counts == Incremented(old(counts), key)
    {
      counts := Incremented(counts, key);
    }
  }

  /** Family<Labels, Histogram> built with a constructor that always uses the same bounds. */
  class HistogramFamily {
    const bounds: seq<real>
    var series: map<Labels, Histogram>

    /** Every series the family has created uses the family's bounds. */
    ghost predicate Valid()
      reads this
    {
      forall k | k in series :: series[k].bounds == bounds
    }

    /** Family::new_with_constructor. */
    constructor NewWithConstructor(bounds: seq<real>)
      ensures Valid() && this.bounds == bounds && series == map[]
    {
      this.bounds := bounds;
      series := map[];
    }

    method Observe(key: Labels, v: nat)
      requires Valid()
      modifies this
      ensures Valid()
      ensures series == Observed(old(series), bounds, key, v)
    {
      series := Observed(series, bounds, key, v);
    }
  }

  datatype Metric = CounterMetric(counter: CounterFamily) | HistogramMetric(histogram: HistogramFamily)

  datatype Registration = Registration(name: string, help: string, metric: Metric)

  class Registry {
    var entries: seq<Registration>

    /** Registry::default. */
    constructor ()
      ensures entries == []
    {
      entries := [];
    }

    /** Registry::register: the registration is appended after the earlier ones. */
    method Register(name: string, help: string, metric: Metric)
      modifies this
      ensures entries == old(entries) + [Registration(name, help, metric)]
    {
      entries := entries + [Registration(name, help, metric)];
    }
  }
}
