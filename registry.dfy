/**
 * The tagged metric registry the middleware writes to, abstracted as a table
 * from (kind, name, tags) to a number: a gauge's value, a counter's count or
 * a histogram's number of samples.
 */
module MetricRegistry {
  import opened Naming

  /** Delta counters are registered apart from cumulative counters of the same name. */
  datatype Kind = Gauge | Counter | DeltaCounter | Histogram

  datatype MetricKey = MetricKey(kind: Kind, name: string, tags: TagMap)

  type Table = map<MetricKey, int>

  /** What `gauge.get_value()` reads: NaN for a gauge never set. */
  datatype Reading = NaN | Value(value: int)

  /** One change to one metric: add `delta` to it, creating it at zero first. */
  datatype Update = Update(key: MetricKey, delta: int)

  /** The value of a metric, a missing one reading as zero. */
  function Current(m: Table, k: MetricKey): int {
    if k in m then m[k] else 0
  }

  function Apply(m: Table, u: Update): Table {
    m[u.key := Current(m, u.key) + u.delta]
  }

  /** The updates applied in order. */
  function ApplyAll(m: Table, us: seq<Update>): Table
    decreases |us|
  {
    if us == [] then m else Apply(ApplyAll(m, us[..|us| - 1]), us[|us| - 1])
  }

  /** The net change the updates make to one metric. */
  function Total(us: seq<Update>, k: MetricKey): int
    decreases |us|
  {
    if us == [] then 0
    else Total(us[..|us| - 1], k) + (if us[|us| - 1].key == k then us[|us| - 1].delta else 0)
  }

  /** Some update names the metric. */
  predicate Touches(us: seq<Update>, k: MetricKey) {
    exists i :: 0 <= i < |us| && us[i].key == k
  }

  lemma ApplyAllSnoc(m: Table, us: seq<Update>, u: Update)
    ensures ApplyAll(m, us + [u]) == Apply(ApplyAll(m, us), u)
  {
    assert (us + [u])[..|us|] == us;
  }

  lemma ApplyOne(m: Table, u: Update)
    ensures ApplyAll(m, [u]) == Apply(m, u)
  {
    ApplyAllSnoc(m, [], u);
    assert [] + [u] == [u];
  }

  lemma ApplyPair(m: Table, u: Update, v: Update)
    ensures ApplyAll(m, [u, v]) == Apply(Apply(m, u), v)
  {
    ApplyAllSnoc(m, [], u);
    ApplyAllSnoc(m, [u], v);
    assert [] + [u] == [u] && [u] + [v] == [u, v];
  }

  /**
   * Applying updates adds their net change to every metric, creates exactly
   * the metrics they name that did not exist, and leaves the others alone.
   */
  lemma {:induction false} ApplyAllEffect(m: Table, us: seq<Update>, k: MetricKey)
    ensures Current(ApplyAll(m, us), k) == Current(m, k) + Total(us, k)
    ensures k in ApplyAll(m, us) <==> k in m || Touches(us, k)
    decreases |us|
  {
    if us != [] {
      var init := us[..|us| - 1];
      ApplyAllEffect(m, init, k);
      assert Touches(us, k) <==> Touches(init, k) || us[|us| - 1].key == k by {
        if Touches(us, k) {
          var i :| 0 <= i < |us| && us[i].key == k;
          if i < |us| - 1 {
            assert init[i].key == k;
          }
        }
        if Touches(init, k) {
          var i :| 0 <= i < |init| && init[i].key == k;
          assert us[i].key == k;
        }
      }
    }
  }

  lemma {:induction false} TotalAppend(a: seq<Update>, b: seq<Update>, k: MetricKey)
    ensures Total(a + b, k) == Total(a, k) + Total(b, k)
    decreases |b|
  {
    if b != [] {
      assert (a + b)[..|a + b| - 1] == a + b[..|b| - 1];
      TotalAppend(a, b[..|b| - 1], k);
    } else {
      assert a + b == a;
    }
  }

  lemma {:induction false} ApplyAllAppend(m: Table, a: seq<Update>, b: seq<Update>)
    ensures ApplyAll(m, a + b) == ApplyAll(ApplyAll(m, a), b)
    decreases |b|
  {
    if b != [] {
      assert (a + b)[..|a + b| - 1] == a + b[..|b| - 1];
      ApplyAllAppend(m, a, b[..|b| - 1]);
    } else {
      assert a + b == a;
    }
  }

  /** Every update that names the metric raises it. */
  predicate RaisesOnly(us: seq<Update>, k: MetricKey) {
    forall i :: 0 <= i < |us| && us[i].key == k ==> us[i].delta > 0
  }

  /** Updates that only raise a metric change it exactly when they name it. */
  lemma {:induction false} RaisedIffTouched(us: seq<Update>, k: MetricKey)
    requires RaisesOnly(us, k)
    ensures Total(us, k) >= 0
    ensures Touches(us, k) <==> Total(us, k) > 0
    decreases |us|
  {
    if us != [] {
      var init := us[..|us| - 1];
      assert RaisesOnly(init, k) by {
        forall i | 0 <= i < |init| && init[i].key == k ensures init[i].delta > 0 {
          assert us[i] == init[i];
        }
      }
      RaisedIffTouched(init, k);
      if Touches(init, k) {
        var i :| 0 <= i < |init| && init[i].key == k;
        assert us[i].key == k;
      }
      if Touches(us, k) && us[|us| - 1].key != k {
        var i :| 0 <= i < |us| && us[i].key == k;
        assert init[i].key == k;
      }
    }
  }

  /** The metrics of one registry: its gauges, counters, delta counters and histograms. */
  class Registry {
    var metrics: Table

    constructor ()
      ensures metrics == map[]
    {
      metrics := map[];
    }

    /** `registry.gauge(key, tags).get_value()`. */
    method GetGaugeValue(name: string, tags: TagMap) returns (r: Reading)
      ensures MetricKey(Gauge, name, tags) in metrics ==> r == Value(metrics[MetricKey(Gauge, name, tags)])
      ensures MetricKey(Gauge, name, tags) !in metrics ==> r == NaN
    {
      var k := MetricKey(Gauge, name, tags);
      r := if k in metrics then Value(metrics[k]) else NaN;
    }

    /** `registry.gauge(key, tags).set_value(value)`. */
    method SetGaugeValue(name: string, tags: TagMap, value: int)
      modifies this
      ensures metrics == old(metrics)[MetricKey(Gauge, name, tags) := value]
    {
      metrics := metrics[MetricKey(Gauge, name, tags) := value];
    }

    /** `registry.counter(name, tags).inc()`. */
    method IncCounter(name: string, tags: TagMap)
      modifies this
      ensures metrics == Apply(old(metrics), Update(MetricKey(Counter, name, tags), 1))
    {
      var k := MetricKey(Counter, name, tags);
      metrics := metrics[k := Current(metrics, k) + 1];
    }

    /** `delta_counter(registry, name, tags).inc()`. */
    method IncDeltaCounter(name: string, tags: TagMap)
      modifies this
      ensures metrics == Apply(old(metrics), Update(MetricKey(DeltaCounter, name, tags), 1))
    {
      var k := MetricKey(DeltaCounter, name, tags);
      metrics := metrics[k := Current(metrics, k) + 1];
    }

    /** `wavefront_histogram(registry, name, tags).add(sample)`, counting the sample. */
    method AddHistogramSample(name: string, tags: TagMap)
      modifies this
      ensures metrics == Apply(old(metrics), Update(MetricKey(Histogram, name, tags), 1))
    {
      var k := MetricKey(Histogram, name, tags);
      metrics := metrics[k := Current(metrics, k) + 1];
    }
  }
}
