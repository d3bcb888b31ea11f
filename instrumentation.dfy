/**
 * What one request does to the registry. `process_view` and
 * `process_response` are specified by the list of updates they apply, in
 * order; the lemmas here say, for each metric, by how much it changes.
 */
module Instrumentation {
  import opened Wrappers
  import opened PyStrings
  import opened SdkConstants
  import opened AppTags
  import opened Naming
  import opened MetricRegistry

  /**
   * The value of `dimension or NULL_TAG_VAL`, remembering which of the two
   * objects was picked: `is not NULL_TAG_VAL` compares identity.
   */
  datatype TagValue = Configured(text: string) | NullTag

  function OrNull(o: Option<string>): TagValue {
    if Truthy(o) then Configured(o.value) else NullTag
  }

  function Text(v: TagValue, c: Constants): string {
    if v.Configured? then v.text else c.nullTagVal
  }

  /** The state the middleware fixes at start-up: constants, identity and the derived tag values. */
  datatype Setup = Setup(c: Constants, tags: ApplicationTags, cluster: TagValue, service: TagValue, shard: TagValue)
  {
    predicate Valid() {
      && c.Valid() && tags.Valid()
      && cluster == OrNull(tags.cluster)
      && service == OrNull(Some(tags.service))
      && shard == OrNull(tags.shard)
    }
  }

  /** The names process_view and process_response recompute from the request. */
  datatype Route = Route(entityName: string, httpMethod: string, moduleName: string, funcName: string)

  /** The ten tag maps of process_response, named as in the source. */
  datatype ResponseTags = ResponseTags(
    complete: TagMap,
    aggregatedPerShard: TagMap,
    overallAggregatedPerSource: TagMap,
    overallAggregatedPerShard: TagMap,
    aggregatedPerService: TagMap,
    overallAggregatedPerService: TagMap,
    aggregatedPerCluster: TagMap,
    overallAggregatedPerCluster: TagMap,
    aggregatedPerApplication: TagMap,
    overallAggregatedPerApplication: TagMap)

  function ResponseTagMaps(s: Setup, route: Route): ResponseTags {
    var cl, sv, sh := Some(Text(s.cluster, s.c)), Some(Text(s.service, s.c)), Some(Text(s.shard, s.c));
    var mo, fu, src := Some(route.moduleName), Some(route.funcName), Some(s.c.wavefrontProvidedSource);
    ResponseTags(
      TagsMap(cluster := cl, service := sv, shard := sh, moduleName := mo, funcName := fu),
      TagsMap(cluster := cl, service := sv, shard := sh, moduleName := mo, funcName := fu, source := src),
      TagsMap(cluster := cl, service := sv, shard := sh),
      TagsMap(cluster := cl, service := sv, shard := sh, source := src),
      TagsMap(cluster := cl, service := sv, moduleName := mo, funcName := fu, source := src),
      TagsMap(cluster := cl, service := sv, source := src),
      TagsMap(cluster := cl, moduleName := mo, funcName := fu, source := src),
      TagsMap(cluster := cl, source := src),
      TagsMap(moduleName := mo, funcName := fu, source := src),
      TagsMap(source := src))
  }

  /** The updates of an `if g:` block. */
  function When(g: bool, us: seq<Update>): seq<Update> {
    if g then us else []
  }

  /** Appending a gated segment to applied updates applies the segment when the gate holds. */
  lemma ApplyWhen(m: Table, done: seq<Update>, g: bool, us: seq<Update>)
    ensures ApplyAll(m, done + When(g, us)) == if g then ApplyAll(ApplyAll(m, done), us) else ApplyAll(m, done)
  {
    ApplyAllAppend(m, done, When(g, us));
  }

  /** The entity inflight gauge. */
  function EntityInflightKey(s: Setup, route: Route): MetricKey {
    MetricKey(Gauge, GetMetricName(s.c, route.entityName, route.httpMethod) + ".inflight",
              TagsMap(moduleName := Some(route.moduleName), funcName := Some(route.funcName)))
  }

  /** The overall inflight gauge. */
  function TotalInflightKey(s: Setup): MetricKey {
    MetricKey(Gauge, "total_requests.inflight",
              TagsMap(cluster := Some(Text(s.cluster, s.c)), service := Some(Text(s.service, s.c)),
                      shard := Some(Text(s.shard, s.c))))
  }

  /** The two `update_gauge` calls, both by `val`. */
  function InflightUpdates(s: Setup, route: Route, val: int): seq<Update> {
    [Update(EntityInflightKey(s, route), val), Update(TotalInflightKey(s), val)]
  }

  /** process_view: both inflight gauges up by one. */
  function ViewUpdates(s: Setup, route: Route): seq<Update> {
    InflightUpdates(s, route, 1)
  }

  /** `response_metric_key`. */
  function ResponseKey(s: Setup, route: Route, response: Response): string {
    GetMetricName(s.c, route.entityName, route.httpMethod, Some(response))
  }

  /** The per-endpoint counters, shard and cluster scopes gated on the identity's fields. */
  function RollupUpdates(s: Setup, key: string, tm: ResponseTags): seq<Update> {
    [Update(MetricKey(Counter, key + ".cumulative", tm.complete), 1)]
    + When(Truthy(s.tags.shard), [Update(MetricKey(DeltaCounter, key + ".aggregated_per_shard", tm.aggregatedPerShard), 1)])
    + [Update(MetricKey(DeltaCounter, key + ".aggregated_per_service", tm.aggregatedPerService), 1)]
    + When(Truthy(s.tags.cluster), [Update(MetricKey(DeltaCounter, key + ".aggregated_per_cluster", tm.aggregatedPerCluster), 1)])
    + [Update(MetricKey(DeltaCounter, key + ".aggregated_per_application", tm.aggregatedPerApplication), 1)]
  }

  /** The error counters, emitted only for an error status. */
  function ErrorUpdates(s: Setup, route: Route, tm: ResponseTags): seq<Update> {
    [Update(MetricKey(Counter, GetMetricNameWithoutStatus(s.c, route.entityName, route.httpMethod), tm.complete), 1)]
    + [Update(MetricKey(Counter, "response.errors", tm.complete), 1)]
    + [Update(MetricKey(Counter, "response.errors.aggregated_per_source", tm.overallAggregatedPerSource), 1)]
    + When(Truthy(s.tags.shard), [Update(MetricKey(DeltaCounter, "response.errors.aggregated_per_shard", tm.overallAggregatedPerShard), 1)])
    + [Update(MetricKey(DeltaCounter, "response.errors.aggregated_per_service", tm.overallAggregatedPerService), 1)]
    + When(Truthy(s.tags.cluster), [Update(MetricKey(DeltaCounter, "response.errors.aggregated_per_cluster", tm.overallAggregatedPerCluster), 1)])
    + [Update(MetricKey(DeltaCounter, "response.errors.aggregated_per_application", tm.overallAggregatedPerApplication), 1)]
  }

  /**
   * The completion counters. As in the source, the per-service counter is
   * gated on the shard and the per-application counter on the cluster.
   */
  function CompletedUpdates(s: Setup, tm: ResponseTags): seq<Update> {
    [Update(MetricKey(Counter, "response.completed.aggregated_per_source", tm.overallAggregatedPerSource), 1)]
    + When(s.shard != NullTag,
           [Update(MetricKey(DeltaCounter, "response.completed.aggregated_per_shard", tm.overallAggregatedPerShard), 1),
            Update(MetricKey(Counter, "response.completed.aggregated_per_service", tm.overallAggregatedPerService), 1)])
    + When(s.cluster != NullTag,
           [Update(MetricKey(DeltaCounter, "response.completed.aggregated_per_cluster", tm.overallAggregatedPerCluster), 1),
            Update(MetricKey(Counter, "response.completed.aggregated_per_application", tm.overallAggregatedPerApplication), 1)])
  }

  /** One latency and one CPU-time sample. */
  function HistogramUpdates(key: string, tm: ResponseTags): seq<Update> {
    [Update(MetricKey(Histogram, key + ".latency", tm.complete), 1),
     Update(MetricKey(Histogram, key + ".cpu_ns", tm.complete), 1)]
  }

  /** process_response: every registry change of an enabled middleware, in source order. */
  function ResponseUpdates(s: Setup, route: Route, response: Response, stamped: bool): seq<Update> {
    ResponseUpdatesWith(s, route, ResponseKey(s, route, response), ResponseTagMaps(s, route),
                        IsErrorStatusCode(response), stamped)
  }

  /** The update list of process_response, given its metric key, its tag maps and the two conditions. */
  function ResponseUpdatesWith(s: Setup, route: Route, key: string, tm: ResponseTags, error: bool, stamped: bool): seq<Update> {
    InflightUpdates(s, route, -1)
    + RollupUpdates(s, key, tm)
    + When(error, ErrorUpdates(s, route, tm))
    + CompletedUpdates(s, tm)
    + When(stamped, HistogramUpdates(key, tm))
  }

  // ---------------------------------------------------------------------------
  // Counting

  function Weight(u: Update, k: MetricKey): int {
    if u.key == k then u.delta else 0
  }

  lemma TotalOne(u: Update, k: MetricKey)
    ensures Total([u], k) == Weight(u, k)
    ensures forall g :: Total(When(g, [u]), k) == if g then Weight(u, k) else 0
  {
    assert [u][..0] == [];
  }

  lemma TotalPair(u: Update, v: Update, k: MetricKey)
    ensures Total([u, v], k) == Weight(u, k) + Weight(v, k)
    ensures forall g :: Total(When(g, [u, v]), k) == if g then Weight(u, k) + Weight(v, k) else 0
  {
    assert [u, v][..1] == [u];
    TotalOne(u, k);
  }

  /** process_response applies its segments one after another. */
  lemma ApplyResponseSegments(m: Table, s: Setup, route: Route, key: string, tm: ResponseTags, error: bool, stamped: bool)
    ensures ApplyAll(m, ResponseUpdatesWith(s, route, key, tm, error, stamped))
            == ApplyAll(ApplyAll(ApplyAll(ApplyAll(ApplyAll(m,
                 InflightUpdates(s, route, -1)),
                 RollupUpdates(s, key, tm)),
                 When(error, ErrorUpdates(s, route, tm))),
                 CompletedUpdates(s, tm)),
                 When(stamped, HistogramUpdates(key, tm)))
  {
    var a := InflightUpdates(s, route, -1);
    var b := RollupUpdates(s, key, tm);
    var e := When(error, ErrorUpdates(s, route, tm));
    var c := CompletedUpdates(s, tm);
    var h := When(stamped, HistogramUpdates(key, tm));
    ApplyAllAppend(m, a, b);
    ApplyAllAppend(m, a + b, e);
    ApplyAllAppend(m, a + b + e, c);
    ApplyAllAppend(m, a + b + e + c, h);
  }

  /** The net change of process_response, segment by segment. */
  lemma ResponseSegments(s: Setup, route: Route, key: string, tm: ResponseTags, error: bool, stamped: bool, k: MetricKey)
    ensures Total(ResponseUpdatesWith(s, route, key, tm, error, stamped), k)
            == Total(InflightUpdates(s, route, -1), k)
               + Total(RollupUpdates(s, key, tm), k)
               + (if error then Total(ErrorUpdates(s, route, tm), k) else 0)
               + Total(CompletedUpdates(s, tm), k)
               + (if stamped then Total(HistogramUpdates(key, tm), k) else 0)
  {
    var a := InflightUpdates(s, route, -1);
    var b := RollupUpdates(s, key, tm);
    var e := When(error, ErrorUpdates(s, route, tm));
    var c := CompletedUpdates(s, tm);
    var h := When(stamped, HistogramUpdates(key, tm));
    TotalAppend(a, b, k);
    TotalAppend(a + b, e, k);
    TotalAppend(a + b + e, c, k);
    TotalAppend(a + b + e + c, h, k);
  }

  /** Only the two inflight updates touch gauges. */
  lemma NoGaugeInRollup(s: Setup, key: string, tm: ResponseTags, k: MetricKey)
    requires k.kind == Gauge
    ensures Total(RollupUpdates(s, key, tm), k) == 0
  {
    RollupTotal(s, key, tm, k);
  }

  lemma NoGaugeInErrors(s: Setup, route: Route, tm: ResponseTags, k: MetricKey)
    requires k.kind == Gauge
    ensures Total(ErrorUpdates(s, route, tm), k) == 0
  {
    ErrorTotal(s, route, tm, k);
  }

  lemma NoGaugeInCompleted(s: Setup, tm: ResponseTags, k: MetricKey)
    requires k.kind == Gauge
    ensures Total(CompletedUpdates(s, tm), k) == 0
  {
    CompletedTotal(s, tm, k);
  }

  lemma NoGaugeInHistograms(key: string, tm: ResponseTags, k: MetricKey)
    requires k.kind == Gauge
    ensures Total(HistogramUpdates(key, tm), k) == 0
  {
    HistogramTotal(key, tm, k);
  }

  /**
   * A request that enters process_view and leaves through process_response
   * changes no gauge: whatever one adds the other takes away.
   */
  lemma GaugesNetZero(s: Setup, route: Route, response: Response, stamped: bool, k: MetricKey)
    requires k.kind == Gauge
    ensures Total(ViewUpdates(s, route), k) + Total(ResponseUpdates(s, route, response, stamped), k) == 0
  {
    var key, tm := ResponseKey(s, route, response), ResponseTagMaps(s, route);
    ResponseSegments(s, route, key, tm, IsErrorStatusCode(response), stamped, k);
    NoGaugeInRollup(s, key, tm, k);
    NoGaugeInErrors(s, route, tm, k);
    NoGaugeInCompleted(s, tm, k);
    NoGaugeInHistograms(key, tm, k);
    InflightPairTotal(s, route, 1, k);
    InflightPairTotal(s, route, -1, k);
  }

  // ---------------------------------------------------------------------------
  // Which counters fire, and how often

  /** The number of `.` characters in a name. */
  function Dots(s: string): nat {
    multiset(s)['.']
  }

  /** With a valid setup every configured dimension renders as a non-empty tag value. */
  lemma TextsNonEmpty(s: Setup)
    requires s.Valid()
    ensures Text(s.cluster, s.c) != "" && Text(s.service, s.c) != "" && Text(s.shard, s.c) != ""
  {
  }

  /** How many name segments the metric names have. */
  lemma NameDots(s: Setup, route: Route, response: Response)
    ensures Dots(ResponseKey(s, route, response))
            == Dots(s.c.responsePrefix) + Dots(route.entityName) + Dots(route.httpMethod) + 3
    ensures Dots(GetMetricNameWithoutStatus(s.c, route.entityName, route.httpMethod))
            == Dots(s.c.requestPrefix) + Dots(route.entityName) + Dots(route.httpMethod) + 2
  {
    var status := IntToString(response.statusCode);
    assert '.' !in multiset(status);
  }

  /**
   * Which of the cluster, service, shard, module and source tags each of the
   * ten maps carries: the scope of every aggregation.
   */
  predicate Shaped(tm: ResponseTags) {
    && ClusterKey in tm.complete && ServiceKey in tm.complete && ShardKey in tm.complete && ModuleKey in tm.complete && SourceKey !in tm.complete
    && ClusterKey in tm.aggregatedPerShard && ServiceKey in tm.aggregatedPerShard && ShardKey in tm.aggregatedPerShard && ModuleKey in tm.aggregatedPerShard && SourceKey in tm.aggregatedPerShard
    && ClusterKey in tm.overallAggregatedPerSource && ServiceKey in tm.overallAggregatedPerSource && ShardKey in tm.overallAggregatedPerSource && ModuleKey !in tm.overallAggregatedPerSource && SourceKey !in tm.overallAggregatedPerSource
    && ClusterKey in tm.overallAggregatedPerShard && ServiceKey in tm.overallAggregatedPerShard && ShardKey in tm.overallAggregatedPerShard && ModuleKey !in tm.overallAggregatedPerShard && SourceKey in tm.overallAggregatedPerShard
    && ClusterKey in tm.aggregatedPerService && ServiceKey in tm.aggregatedPerService && ShardKey !in tm.aggregatedPerService && ModuleKey in tm.aggregatedPerService && SourceKey in tm.aggregatedPerService
    && ClusterKey in tm.overallAggregatedPerService && ServiceKey in tm.overallAggregatedPerService && ShardKey !in tm.overallAggregatedPerService && ModuleKey !in tm.overallAggregatedPerService && SourceKey in tm.overallAggregatedPerService
    && ClusterKey in tm.aggregatedPerCluster && ServiceKey !in tm.aggregatedPerCluster && ShardKey !in tm.aggregatedPerCluster && ModuleKey in tm.aggregatedPerCluster && SourceKey in tm.aggregatedPerCluster
    && ClusterKey in tm.overallAggregatedPerCluster && ServiceKey !in tm.overallAggregatedPerCluster && ShardKey !in tm.overallAggregatedPerCluster && ModuleKey !in tm.overallAggregatedPerCluster && SourceKey in tm.overallAggregatedPerCluster
    && ClusterKey !in tm.aggregatedPerApplication && ServiceKey !in tm.aggregatedPerApplication && ShardKey !in tm.aggregatedPerApplication && ModuleKey in tm.aggregatedPerApplication && SourceKey in tm.aggregatedPerApplication
    && ClusterKey !in tm.overallAggregatedPerApplication && ServiceKey !in tm.overallAggregatedPerApplication && ShardKey !in tm.overallAggregatedPerApplication && ModuleKey !in tm.overallAggregatedPerApplication && SourceKey in tm.overallAggregatedPerApplication
  }

  /** Maps of different scopes are different maps. */
  lemma MapsApart(tm: ResponseTags)
    requires Shaped(tm)
    ensures tm.complete != tm.aggregatedPerShard
    ensures tm.complete != tm.overallAggregatedPerSource
    ensures tm.complete != tm.overallAggregatedPerShard
    ensures tm.complete != tm.aggregatedPerService
    ensures tm.complete != tm.overallAggregatedPerService
    ensures tm.complete != tm.aggregatedPerCluster
    ensures tm.complete != tm.overallAggregatedPerCluster
    ensures tm.complete != tm.aggregatedPerApplication
    ensures tm.complete != tm.overallAggregatedPerApplication
    ensures tm.aggregatedPerShard != tm.overallAggregatedPerSource
    ensures tm.aggregatedPerShard != tm.overallAggregatedPerShard
    ensures tm.aggregatedPerShard != tm.aggregatedPerService
    ensures tm.aggregatedPerShard != tm.overallAggregatedPerService
    ensures tm.aggregatedPerShard != tm.aggregatedPerCluster
    ensures tm.aggregatedPerShard != tm.overallAggregatedPerCluster
    ensures tm.aggregatedPerShard != tm.aggregatedPerApplication
    ensures tm.aggregatedPerShard != tm.overallAggregatedPerApplication
    ensures tm.overallAggregatedPerSource != tm.overallAggregatedPerShard
    ensures tm.overallAggregatedPerSource != tm.aggregatedPerService
    ensures tm.overallAggregatedPerSource != tm.overallAggregatedPerService
    ensures tm.overallAggregatedPerSource != tm.aggregatedPerCluster
    ensures tm.overallAggregatedPerSource != tm.overallAggregatedPerCluster
    ensures tm.overallAggregatedPerSource != tm.aggregatedPerApplication
    ensures tm.overallAggregatedPerSource != tm.overallAggregatedPerApplication
    ensures tm.overallAggregatedPerShard != tm.aggregatedPerService
    ensures tm.overallAggregatedPerShard != tm.overallAggregatedPerService
    ensures tm.overallAggregatedPerShard != tm.aggregatedPerCluster
    ensures tm.overallAggregatedPerShard != tm.overallAggregatedPerCluster
    ensures tm.overallAggregatedPerShard != tm.aggregatedPerApplication
    ensures tm.overallAggregatedPerShard != tm.overallAggregatedPerApplication
    ensures tm.aggregatedPerService != tm.overallAggregatedPerService
    ensures tm.aggregatedPerService != tm.aggregatedPerCluster
    ensures tm.aggregatedPerService != tm.overallAggregatedPerCluster
    ensures tm.aggregatedPerService != tm.aggregatedPerApplication
    ensures tm.aggregatedPerService != tm.overallAggregatedPerApplication
    ensures tm.overallAggregatedPerService != tm.aggregatedPerCluster
    ensures tm.overallAggregatedPerService != tm.overallAggregatedPerCluster
    ensures tm.overallAggregatedPerService != tm.aggregatedPerApplication
    ensures tm.overallAggregatedPerService != tm.overallAggregatedPerApplication
    ensures tm.aggregatedPerCluster != tm.overallAggregatedPerCluster
    ensures tm.aggregatedPerCluster != tm.aggregatedPerApplication
    ensures tm.aggregatedPerCluster != tm.overallAggregatedPerApplication
    ensures tm.overallAggregatedPerCluster != tm.aggregatedPerApplication
    ensures tm.overallAggregatedPerCluster != tm.overallAggregatedPerApplication
    ensures tm.aggregatedPerApplication != tm.overallAggregatedPerApplication
  {
  }

  lemma ResponseTagMapsShaped(s: Setup, route: Route)
    requires s.Valid() && route.moduleName != ""
    ensures Shaped(ResponseTagMaps(s, route))
  {
    TextsNonEmpty(s);
    TagKeysDistinct();
  }

  // Each segment's total for an arbitrary metric, update by update.

  lemma RollupTotal(s: Setup, key: string, tm: ResponseTags, k: MetricKey)
    ensures Total(RollupUpdates(s, key, tm), k)
            == Weight(Update(MetricKey(Counter, key + ".cumulative", tm.complete), 1), k)
               + (if Truthy(s.tags.shard)
                  then Weight(Update(MetricKey(DeltaCounter, key + ".aggregated_per_shard", tm.aggregatedPerShard), 1), k) else 0)
               + Weight(Update(MetricKey(DeltaCounter, key + ".aggregated_per_service", tm.aggregatedPerService), 1), k)
               + (if Truthy(s.tags.cluster)
                  then Weight(Update(MetricKey(DeltaCounter, key + ".aggregated_per_cluster", tm.aggregatedPerCluster), 1), k) else 0)
               + Weight(Update(MetricKey(DeltaCounter, key + ".aggregated_per_application", tm.aggregatedPerApplication), 1), k)
  {
    var e1 := Update(MetricKey(Counter, key + ".cumulative", tm.complete), 1);
    var e2 := Update(MetricKey(DeltaCounter, key + ".aggregated_per_shard", tm.aggregatedPerShard), 1);
    var e3 := Update(MetricKey(DeltaCounter, key + ".aggregated_per_service", tm.aggregatedPerService), 1);
    var e4 := Update(MetricKey(DeltaCounter, key + ".aggregated_per_cluster", tm.aggregatedPerCluster), 1);
    var e5 := Update(MetricKey(DeltaCounter, key + ".aggregated_per_application", tm.aggregatedPerApplication), 1);
    var u1, u2, u3 := [e1], When(Truthy(s.tags.shard), [e2]), [e3];
    var u4, u5 := When(Truthy(s.tags.cluster), [e4]), [e5];
    assert RollupUpdates(s, key, tm) == u1 + u2 + u3 + u4 + u5;
    TotalAppend(u1, u2, k);
    TotalAppend(u1 + u2, u3, k);
    TotalAppend(u1 + u2 + u3, u4, k);
    TotalAppend(u1 + u2 + u3 + u4, u5, k);
    TotalOne(e1, k);
    TotalOne(e2, k);
    TotalOne(e3, k);
    TotalOne(e4, k);
    TotalOne(e5, k);
  }

  lemma ErrorTotal(s: Setup, route: Route, tm: ResponseTags, k: MetricKey)
    ensures Total(ErrorUpdates(s, route, tm), k)
            == Weight(Update(MetricKey(Counter, GetMetricNameWithoutStatus(s.c, route.entityName, route.httpMethod), tm.complete), 1), k)
               + Weight(Update(MetricKey(Counter, "response.errors", tm.complete), 1), k)
               + Weight(Update(MetricKey(Counter, "response.errors.aggregated_per_source", tm.overallAggregatedPerSource), 1), k)
               + (if Truthy(s.tags.shard)
                  then Weight(Update(MetricKey(DeltaCounter, "response.errors.aggregated_per_shard", tm.overallAggregatedPerShard), 1), k) else 0)
               + Weight(Update(MetricKey(DeltaCounter, "response.errors.aggregated_per_service", tm.overallAggregatedPerService), 1), k)
               + (if Truthy(s.tags.cluster)
                  then Weight(Update(MetricKey(DeltaCounter, "response.errors.aggregated_per_cluster", tm.overallAggregatedPerCluster), 1), k) else 0)
               + Weight(Update(MetricKey(DeltaCounter, "response.errors.aggregated_per_application", tm.overallAggregatedPerApplication), 1), k)
  {
    var e1 := Update(MetricKey(Counter, GetMetricNameWithoutStatus(s.c, route.entityName, route.httpMethod), tm.complete), 1);
    var e2 := Update(MetricKey(Counter, "response.errors", tm.complete), 1);
    var e3 := Update(MetricKey(Counter, "response.errors.aggregated_per_source", tm.overallAggregatedPerSource), 1);
    var e4 := Update(MetricKey(DeltaCounter, "response.errors.aggregated_per_shard", tm.overallAggregatedPerShard), 1);
    var e5 := Update(MetricKey(DeltaCounter, "response.errors.aggregated_per_service", tm.overallAggregatedPerService), 1);
    var e6 := Update(MetricKey(DeltaCounter, "response.errors.aggregated_per_cluster", tm.overallAggregatedPerCluster), 1);
    var e7 := Update(MetricKey(DeltaCounter, "response.errors.aggregated_per_application", tm.overallAggregatedPerApplication), 1);
    var u1, u2, u3, u4 := [e1], [e2], [e3], When(Truthy(s.tags.shard), [e4]);
    var u5, u6, u7 := [e5], When(Truthy(s.tags.cluster), [e6]), [e7];
    assert ErrorUpdates(s, route, tm) == u1 + u2 + u3 + u4 + u5 + u6 + u7;
    TotalAppend(u1, u2, k);
    TotalAppend(u1 + u2, u3, k);
    TotalAppend(u1 + u2 + u3, u4, k);
    TotalAppend(u1 + u2 + u3 + u4, u5, k);
    TotalAppend(u1 + u2 + u3 + u4 + u5, u6, k);
    TotalAppend(u1 + u2 + u3 + u4 + u5 + u6, u7, k);
    TotalOne(e1, k);
    TotalOne(e2, k);
    TotalOne(e3, k);
    TotalOne(e4, k);
    TotalOne(e5, k);
    TotalOne(e6, k);
    TotalOne(e7, k);
  }

  lemma CompletedTotal(s: Setup, tm: ResponseTags, k: MetricKey)
    ensures Total(CompletedUpdates(s, tm), k)
            == Weight(Update(MetricKey(Counter, "response.completed.aggregated_per_source", tm.overallAggregatedPerSource), 1), k)
               + (if s.shard != NullTag
                  then Weight(Update(MetricKey(DeltaCounter, "response.completed.aggregated_per_shard", tm.overallAggregatedPerShard), 1), k)
                       + Weight(Update(MetricKey(Counter, "response.completed.aggregated_per_service", tm.overallAggregatedPerService), 1), k)
                  else 0)
               + (if s.cluster != NullTag
                  then Weight(Update(MetricKey(DeltaCounter, "response.completed.aggregated_per_cluster", tm.overallAggregatedPerCluster), 1), k)
                       + Weight(Update(MetricKey(Counter, "response.completed.aggregated_per_application", tm.overallAggregatedPerApplication), 1), k)
                  else 0)
  {
    var e1 := Update(MetricKey(Counter, "response.completed.aggregated_per_source", tm.overallAggregatedPerSource), 1);
    var e2 := Update(MetricKey(DeltaCounter, "response.completed.aggregated_per_shard", tm.overallAggregatedPerShard), 1);
    var e3 := Update(MetricKey(Counter, "response.completed.aggregated_per_service", tm.overallAggregatedPerService), 1);
    var e4 := Update(MetricKey(DeltaCounter, "response.completed.aggregated_per_cluster", tm.overallAggregatedPerCluster), 1);
    var e5 := Update(MetricKey(Counter, "response.completed.aggregated_per_application", tm.overallAggregatedPerApplication), 1);
    var u1, u2, u3 := [e1], When(s.shard != NullTag, [e2, e3]), When(s.cluster != NullTag, [e4, e5]);
    assert CompletedUpdates(s, tm) == u1 + u2 + u3;
    TotalAppend(u1, u2, k);
    TotalAppend(u1 + u2, u3, k);
    TotalOne(e1, k);
    TotalPair(e2, e3, k);
    TotalPair(e4, e5, k);
  }

  lemma HistogramTotal(key: string, tm: ResponseTags, k: MetricKey)
    ensures Total(HistogramUpdates(key, tm), k)
            == Weight(Update(MetricKey(Histogram, key + ".latency", tm.complete), 1), k)
               + Weight(Update(MetricKey(Histogram, key + ".cpu_ns", tm.complete), 1), k)
  {
    TotalPair(Update(MetricKey(Histogram, key + ".latency", tm.complete), 1),
              Update(MetricKey(Histogram, key + ".cpu_ns", tm.complete), 1), k);
  }

  lemma InflightPairTotal(s: Setup, route: Route, val: int, k: MetricKey)
    ensures Total(InflightUpdates(s, route, val), k)
            == Weight(Update(EntityInflightKey(s, route), val), k) + Weight(Update(TotalInflightKey(s), val), k)
  {
    TotalPair(Update(EntityInflightKey(s, route), val), Update(TotalInflightKey(s), val), k);
  }

  lemma InflightTotal(s: Setup, route: Route, k: MetricKey)
    requires k.kind != Gauge
    ensures Total(InflightUpdates(s, route, -1), k) == 0
  {
    InflightPairTotal(s, route, -1, k);
  }

  /** What keeps the three full-scope counters of one response apart by name. */
  predicate NamesApart(key: string, requestName: string) {
    && key + ".cumulative" != requestName
    && key + ".cumulative" != "response.errors"
    && requestName != "response.errors"
  }

  /** The overall error and completion counters of one scope have different names. */
  lemma OverallNamesDistinct()
    ensures "response.errors.aggregated_per_source" != "response.completed.aggregated_per_source"
    ensures "response.errors.aggregated_per_shard" != "response.completed.aggregated_per_shard"
    ensures "response.errors.aggregated_per_cluster" != "response.completed.aggregated_per_cluster"
  {
    assert "response.errors.aggregated_per_source"[9] != "response.completed.aggregated_per_source"[9];
    assert "response.errors.aggregated_per_shard"[9] != "response.completed.aggregated_per_shard"[9];
    assert "response.errors.aggregated_per_cluster"[9] != "response.completed.aggregated_per_cluster"[9];
  }

  /** The total of one metric over process_response, as the sum of every update's weight. */
  lemma Expand(s: Setup, route: Route, key: string, tm: ResponseTags, error: bool, stamped: bool, k: MetricKey)
    requires k.kind != Gauge
    ensures Total(ResponseUpdatesWith(s, route, key, tm, error, stamped), k)
            == Weight(Update(MetricKey(Counter, key + ".cumulative", tm.complete), 1), k)
               + (if Truthy(s.tags.shard)
                  then Weight(Update(MetricKey(DeltaCounter, key + ".aggregated_per_shard", tm.aggregatedPerShard), 1), k) else 0)
               + Weight(Update(MetricKey(DeltaCounter, key + ".aggregated_per_service", tm.aggregatedPerService), 1), k)
               + (if Truthy(s.tags.cluster)
                  then Weight(Update(MetricKey(DeltaCounter, key + ".aggregated_per_cluster", tm.aggregatedPerCluster), 1), k) else 0)
               + Weight(Update(MetricKey(DeltaCounter, key + ".aggregated_per_application", tm.aggregatedPerApplication), 1), k)
               + (if error then
                    Weight(Update(MetricKey(Counter, GetMetricNameWithoutStatus(s.c, route.entityName, route.httpMethod), tm.complete), 1), k)
                    + Weight(Update(MetricKey(Counter, "response.errors", tm.complete), 1), k)
                    + Weight(Update(MetricKey(Counter, "response.errors.aggregated_per_source", tm.overallAggregatedPerSource), 1), k)
                    + (if Truthy(s.tags.shard)
                       then Weight(Update(MetricKey(DeltaCounter, "response.errors.aggregated_per_shard", tm.overallAggregatedPerShard), 1), k) else 0)
                    + Weight(Update(MetricKey(DeltaCounter, "response.errors.aggregated_per_service", tm.overallAggregatedPerService), 1), k)
                    + (if Truthy(s.tags.cluster)
                       then Weight(Update(MetricKey(DeltaCounter, "response.errors.aggregated_per_cluster", tm.overallAggregatedPerCluster), 1), k) else 0)
                    + Weight(Update(MetricKey(DeltaCounter, "response.errors.aggregated_per_application", tm.overallAggregatedPerApplication), 1), k)
                  else 0)
               + Weight(Update(MetricKey(Counter, "response.completed.aggregated_per_source", tm.overallAggregatedPerSource), 1), k)
               + (if s.shard != NullTag
                  then Weight(Update(MetricKey(DeltaCounter, "response.completed.aggregated_per_shard", tm.overallAggregatedPerShard), 1), k)
                       + Weight(Update(MetricKey(Counter, "response.completed.aggregated_per_service", tm.overallAggregatedPerService), 1), k)
                  else 0)
               + (if s.cluster != NullTag
                  then Weight(Update(MetricKey(DeltaCounter, "response.completed.aggregated_per_cluster", tm.overallAggregatedPerCluster), 1), k)
                       + Weight(Update(MetricKey(Counter, "response.completed.aggregated_per_application", tm.overallAggregatedPerApplication), 1), k)
                  else 0)
               + (if stamped then
                    Weight(Update(MetricKey(Histogram, key + ".latency", tm.complete), 1), k)
                    + Weight(Update(MetricKey(Histogram, key + ".cpu_ns", tm.complete), 1), k)
                  else 0)
  {
    ResponseSegments(s, route, key, tm, error, stamped, k);
    InflightTotal(s, route, k);
    RollupTotal(s, key, tm, k);
    ErrorTotal(s, route, tm, k);
    CompletedTotal(s, tm, k);
    HistogramTotal(key, tm, k);
  }

  /** The counters process_response bumps, with their conditions. */
  lemma ExpandCounter(s: Setup, route: Route, key: string, tm: ResponseTags, error: bool, stamped: bool, k: MetricKey)
    requires k.kind == Counter
    ensures Total(ResponseUpdatesWith(s, route, key, tm, error, stamped), k)
            == Weight(Update(MetricKey(Counter, key + ".cumulative", tm.complete), 1), k)
               + (if error then
                    Weight(Update(MetricKey(Counter, GetMetricNameWithoutStatus(s.c, route.entityName, route.httpMethod), tm.complete), 1), k)
                    + Weight(Update(MetricKey(Counter, "response.errors", tm.complete), 1), k)
                    + Weight(Update(MetricKey(Counter, "response.errors.aggregated_per_source", tm.overallAggregatedPerSource), 1), k)
                  else 0)
               + Weight(Update(MetricKey(Counter, "response.completed.aggregated_per_source", tm.overallAggregatedPerSource), 1), k)
               + (if s.shard != NullTag
                  then Weight(Update(MetricKey(Counter, "response.completed.aggregated_per_service", tm.overallAggregatedPerService), 1), k) else 0)
               + (if s.cluster != NullTag
                  then Weight(Update(MetricKey(Counter, "response.completed.aggregated_per_application", tm.overallAggregatedPerApplication), 1), k) else 0)
  {
    Expand(s, route, key, tm, error, stamped, k);
  }

  /** The delta counters process_response bumps, with their conditions. */
  lemma ExpandDelta(s: Setup, route: Route, key: string, tm: ResponseTags, error: bool, stamped: bool, k: MetricKey)
    requires k.kind == DeltaCounter
    ensures Total(ResponseUpdatesWith(s, route, key, tm, error, stamped), k)
            == (if Truthy(s.tags.shard)
                then Weight(Update(MetricKey(DeltaCounter, key + ".aggregated_per_shard", tm.aggregatedPerShard), 1), k) else 0)
               + Weight(Update(MetricKey(DeltaCounter, key + ".aggregated_per_service", tm.aggregatedPerService), 1), k)
               + (if Truthy(s.tags.cluster)
                  then Weight(Update(MetricKey(DeltaCounter, key + ".aggregated_per_cluster", tm.aggregatedPerCluster), 1), k) else 0)
               + Weight(Update(MetricKey(DeltaCounter, key + ".aggregated_per_application", tm.aggregatedPerApplication), 1), k)
               + (if error then
                    (if Truthy(s.tags.shard)
                     then Weight(Update(MetricKey(DeltaCounter, "response.errors.aggregated_per_shard", tm.overallAggregatedPerShard), 1), k) else 0)
                    + Weight(Update(MetricKey(DeltaCounter, "response.errors.aggregated_per_service", tm.overallAggregatedPerService), 1), k)
                    + (if Truthy(s.tags.cluster)
                       then Weight(Update(MetricKey(DeltaCounter, "response.errors.aggregated_per_cluster", tm.overallAggregatedPerCluster), 1), k) else 0)
                    + Weight(Update(MetricKey(DeltaCounter, "response.errors.aggregated_per_application", tm.overallAggregatedPerApplication), 1), k)
                  else 0)
               + (if s.shard != NullTag
                  then Weight(Update(MetricKey(DeltaCounter, "response.completed.aggregated_per_shard", tm.overallAggregatedPerShard), 1), k) else 0)
               + (if s.cluster != NullTag
                  then Weight(Update(MetricKey(DeltaCounter, "response.completed.aggregated_per_cluster", tm.overallAggregatedPerCluster), 1), k) else 0)
  {
    Expand(s, route, key, tm, error, stamped, k);
  }

  // One lemma per metric, then one per block of the source.

  lemma CumulativeCount(s: Setup, route: Route, key: string, tm: ResponseTags, error: bool, stamped: bool)
    requires Shaped(tm)
    requires NamesApart(key, GetMetricNameWithoutStatus(s.c, route.entityName, route.httpMethod))
    ensures Total(ResponseUpdatesWith(s, route, key, tm, error, stamped), MetricKey(Counter, key + ".cumulative", tm.complete)) == 1
  {
    MapsApart(tm);
    ExpandCounter(s, route, key, tm, error, stamped, MetricKey(Counter, key + ".cumulative", tm.complete));
  }

  lemma RollupShardCount(s: Setup, route: Route, key: string, tm: ResponseTags, error: bool, stamped: bool)
    requires Shaped(tm)
    requires NamesApart(key, GetMetricNameWithoutStatus(s.c, route.entityName, route.httpMethod))
    ensures Total(ResponseUpdatesWith(s, route, key, tm, error, stamped), MetricKey(DeltaCounter, key + ".aggregated_per_shard", tm.aggregatedPerShard)) == (if Truthy(s.tags.shard) then 1 else 0)
  {
    MapsApart(tm);
    ExpandDelta(s, route, key, tm, error, stamped, MetricKey(DeltaCounter, key + ".aggregated_per_shard", tm.aggregatedPerShard));
  }

  lemma RollupServiceCount(s: Setup, route: Route, key: string, tm: ResponseTags, error: bool, stamped: bool)
    requires Shaped(tm)
    requires NamesApart(key, GetMetricNameWithoutStatus(s.c, route.entityName, route.httpMethod))
    ensures Total(ResponseUpdatesWith(s, route, key, tm, error, stamped), MetricKey(DeltaCounter, key + ".aggregated_per_service", tm.aggregatedPerService)) == 1
  {
    MapsApart(tm);
    ExpandDelta(s, route, key, tm, error, stamped, MetricKey(DeltaCounter, key + ".aggregated_per_service", tm.aggregatedPerService));
  }

  lemma RollupClusterCount(s: Setup, route: Route, key: string, tm: ResponseTags, error: bool, stamped: bool)
    requires Shaped(tm)
    requires NamesApart(key, GetMetricNameWithoutStatus(s.c, route.entityName, route.httpMethod))
    ensures Total(ResponseUpdatesWith(s, route, key, tm, error, stamped), MetricKey(DeltaCounter, key + ".aggregated_per_cluster", tm.aggregatedPerCluster)) == (if Truthy(s.tags.cluster) then 1 else 0)
  {
    MapsApart(tm);
    ExpandDelta(s, route, key, tm, error, stamped, MetricKey(DeltaCounter, key + ".aggregated_per_cluster", tm.aggregatedPerCluster));
  }

  lemma RollupApplicationCount(s: Setup, route: Route, key: string, tm: ResponseTags, error: bool, stamped: bool)
    requires Shaped(tm)
    requires NamesApart(key, GetMetricNameWithoutStatus(s.c, route.entityName, route.httpMethod))
    ensures Total(ResponseUpdatesWith(s, route, key, tm, error, stamped), MetricKey(DeltaCounter, key + ".aggregated_per_application", tm.aggregatedPerApplication)) == 1
  {
    MapsApart(tm);
    ExpandDelta(s, route, key, tm, error, stamped, MetricKey(DeltaCounter, key + ".aggregated_per_application", tm.aggregatedPerApplication));
  }

  /** The per-endpoint counters of process_response. */
  lemma RollupCountsWith(s: Setup, route: Route, key: string, tm: ResponseTags, error: bool, stamped: bool)
    requires Shaped(tm)
    requires NamesApart(key, GetMetricNameWithoutStatus(s.c, route.entityName, route.httpMethod))
    ensures Total(ResponseUpdatesWith(s, route, key, tm, error, stamped), MetricKey(Counter, key + ".cumulative", tm.complete))
            == 1
    ensures Total(ResponseUpdatesWith(s, route, key, tm, error, stamped), MetricKey(DeltaCounter, key + ".aggregated_per_shard", tm.aggregatedPerShard))
            == (if Truthy(s.tags.shard) then 1 else 0)
    ensures Total(ResponseUpdatesWith(s, route, key, tm, error, stamped), MetricKey(DeltaCounter, key + ".aggregated_per_service", tm.aggregatedPerService))
            == 1
    ensures Total(ResponseUpdatesWith(s, route, key, tm, error, stamped), MetricKey(DeltaCounter, key + ".aggregated_per_cluster", tm.aggregatedPerCluster))
            == (if Truthy(s.tags.cluster) then 1 else 0)
    ensures Total(ResponseUpdatesWith(s, route, key, tm, error, stamped), MetricKey(DeltaCounter, key + ".aggregated_per_application", tm.aggregatedPerApplication))
            == 1
  {
    CumulativeCount(s, route, key, tm, error, stamped);
    RollupShardCount(s, route, key, tm, error, stamped);
    RollupServiceCount(s, route, key, tm, error, stamped);
    RollupClusterCount(s, route, key, tm, error, stamped);
    RollupApplicationCount(s, route, key, tm, error, stamped);
  }

  lemma RequestErrorCount(s: Setup, route: Route, key: string, tm: ResponseTags, error: bool, stamped: bool)
    requires Shaped(tm)
    requires NamesApart(key, GetMetricNameWithoutStatus(s.c, route.entityName, route.httpMethod))
    ensures Total(ResponseUpdatesWith(s, route, key, tm, error, stamped), MetricKey(Counter, GetMetricNameWithoutStatus(s.c, route.entityName, route.httpMethod), tm.complete)) == (if error then 1 else 0)
  {
    MapsApart(tm);
    ExpandCounter(s, route, key, tm, error, stamped, MetricKey(Counter, GetMetricNameWithoutStatus(s.c, route.entityName, route.httpMethod), tm.complete));
  }

  lemma ErrorsCount(s: Setup, route: Route, key: string, tm: ResponseTags, error: bool, stamped: bool)
    requires Shaped(tm)
    requires NamesApart(key, GetMetricNameWithoutStatus(s.c, route.entityName, route.httpMethod))
    ensures Total(ResponseUpdatesWith(s, route, key, tm, error, stamped), MetricKey(Counter, "response.errors", tm.complete)) == (if error then 1 else 0)
  {
    MapsApart(tm);
    ExpandCounter(s, route, key, tm, error, stamped, MetricKey(Counter, "response.errors", tm.complete));
  }

  lemma ErrorsSourceCount(s: Setup, route: Route, key: string, tm: ResponseTags, error: bool, stamped: bool)
    requires Shaped(tm)
    requires NamesApart(key, GetMetricNameWithoutStatus(s.c, route.entityName, route.httpMethod))
    ensures Total(ResponseUpdatesWith(s, route, key, tm, error, stamped), MetricKey(Counter, "response.errors.aggregated_per_source", tm.overallAggregatedPerSource)) == (if error then 1 else 0)
  {
    OverallNamesDistinct();
    MapsApart(tm);
    ExpandCounter(s, route, key, tm, error, stamped, MetricKey(Counter, "response.errors.aggregated_per_source", tm.overallAggregatedPerSource));
  }

  lemma ErrorsShardCount(s: Setup, route: Route, key: string, tm: ResponseTags, error: bool, stamped: bool)
    requires Shaped(tm)
    requires NamesApart(key, GetMetricNameWithoutStatus(s.c, route.entityName, route.httpMethod))
    ensures Total(ResponseUpdatesWith(s, route, key, tm, error, stamped), MetricKey(DeltaCounter, "response.errors.aggregated_per_shard", tm.overallAggregatedPerShard)) == (if error && Truthy(s.tags.shard) then 1 else 0)
  {
    OverallNamesDistinct();
    MapsApart(tm);
    ExpandDelta(s, route, key, tm, error, stamped, MetricKey(DeltaCounter, "response.errors.aggregated_per_shard", tm.overallAggregatedPerShard));
  }

  lemma ErrorsServiceCount(s: Setup, route: Route, key: string, tm: ResponseTags, error: bool, stamped: bool)
    requires Shaped(tm)
    requires NamesApart(key, GetMetricNameWithoutStatus(s.c, route.entityName, route.httpMethod))
    ensures Total(ResponseUpdatesWith(s, route, key, tm, error, stamped), MetricKey(DeltaCounter, "response.errors.aggregated_per_service", tm.overallAggregatedPerService)) == (if error then 1 else 0)
  {
    MapsApart(tm);
    ExpandDelta(s, route, key, tm, error, stamped, MetricKey(DeltaCounter, "response.errors.aggregated_per_service", tm.overallAggregatedPerService));
  }

  lemma ErrorsClusterCount(s: Setup, route: Route, key: string, tm: ResponseTags, error: bool, stamped: bool)
    requires Shaped(tm)
    requires NamesApart(key, GetMetricNameWithoutStatus(s.c, route.entityName, route.httpMethod))
    ensures Total(ResponseUpdatesWith(s, route, key, tm, error, stamped), MetricKey(DeltaCounter, "response.errors.aggregated_per_cluster", tm.overallAggregatedPerCluster)) == (if error && Truthy(s.tags.cluster) then 1 else 0)
  {
    OverallNamesDistinct();
    MapsApart(tm);
    ExpandDelta(s, route, key, tm, error, stamped, MetricKey(DeltaCounter, "response.errors.aggregated_per_cluster", tm.overallAggregatedPerCluster));
  }

  lemma ErrorsApplicationCount(s: Setup, route: Route, key: string, tm: ResponseTags, error: bool, stamped: bool)
    requires Shaped(tm)
    requires NamesApart(key, GetMetricNameWithoutStatus(s.c, route.entityName, route.httpMethod))
    ensures Total(ResponseUpdatesWith(s, route, key, tm, error, stamped), MetricKey(DeltaCounter, "response.errors.aggregated_per_application", tm.overallAggregatedPerApplication)) == (if error then 1 else 0)
  {
    MapsApart(tm);
    ExpandDelta(s, route, key, tm, error, stamped, MetricKey(DeltaCounter, "response.errors.aggregated_per_application", tm.overallAggregatedPerApplication));
  }

  /** The error counters of process_response: each only for an error status. */
  lemma ErrorCountsWith(s: Setup, route: Route, key: string, tm: ResponseTags, error: bool, stamped: bool)
    requires Shaped(tm)
    requires NamesApart(key, GetMetricNameWithoutStatus(s.c, route.entityName, route.httpMethod))
    ensures Total(ResponseUpdatesWith(s, route, key, tm, error, stamped), MetricKey(Counter, GetMetricNameWithoutStatus(s.c, route.entityName, route.httpMethod), tm.complete))
            == (if error then 1 else 0)
    ensures Total(ResponseUpdatesWith(s, route, key, tm, error, stamped), MetricKey(Counter, "response.errors", tm.complete))
            == (if error then 1 else 0)
    ensures Total(ResponseUpdatesWith(s, route, key, tm, error, stamped), MetricKey(Counter, "response.errors.aggregated_per_source", tm.overallAggregatedPerSource))
            == (if error then 1 else 0)
    ensures Total(ResponseUpdatesWith(s, route, key, tm, error, stamped), MetricKey(DeltaCounter, "response.errors.aggregated_per_shard", tm.overallAggregatedPerShard))
            == (if error && Truthy(s.tags.shard) then 1 else 0)
    ensures Total(ResponseUpdatesWith(s, route, key, tm, error, stamped), MetricKey(DeltaCounter, "response.errors.aggregated_per_service", tm.overallAggregatedPerService))
            == (if error then 1 else 0)
    ensures Total(ResponseUpdatesWith(s, route, key, tm, error, stamped), MetricKey(DeltaCounter, "response.errors.aggregated_per_cluster", tm.overallAggregatedPerCluster))
            == (if error && Truthy(s.tags.cluster) then 1 else 0)
    ensures Total(ResponseUpdatesWith(s, route, key, tm, error, stamped), MetricKey(DeltaCounter, "response.errors.aggregated_per_application", tm.overallAggregatedPerApplication))
            == (if error then 1 else 0)
  {
    RequestErrorCount(s, route, key, tm, error, stamped);
    ErrorsCount(s, route, key, tm, error, stamped);
    ErrorsSourceCount(s, route, key, tm, error, stamped);
    ErrorsShardCount(s, route, key, tm, error, stamped);
    ErrorsServiceCount(s, route, key, tm, error, stamped);
    ErrorsClusterCount(s, route, key, tm, error, stamped);
    ErrorsApplicationCount(s, route, key, tm, error, stamped);
  }

  lemma CompletedSourceCount(s: Setup, route: Route, key: string, tm: ResponseTags, error: bool, stamped: bool)
    requires Shaped(tm)
    ensures Total(ResponseUpdatesWith(s, route, key, tm, error, stamped), MetricKey(Counter, "response.completed.aggregated_per_source", tm.overallAggregatedPerSource)) == 1
  {
    OverallNamesDistinct();
    MapsApart(tm);
    ExpandCounter(s, route, key, tm, error, stamped, MetricKey(Counter, "response.completed.aggregated_per_source", tm.overallAggregatedPerSource));
  }

  lemma CompletedShardCount(s: Setup, route: Route, key: string, tm: ResponseTags, error: bool, stamped: bool)
    requires Shaped(tm)
    ensures Total(ResponseUpdatesWith(s, route, key, tm, error, stamped), MetricKey(DeltaCounter, "response.completed.aggregated_per_shard", tm.overallAggregatedPerShard)) == (if s.shard != NullTag then 1 else 0)
  {
    OverallNamesDistinct();
    MapsApart(tm);
    ExpandDelta(s, route, key, tm, error, stamped, MetricKey(DeltaCounter, "response.completed.aggregated_per_shard", tm.overallAggregatedPerShard));
  }

  lemma CompletedServiceCount(s: Setup, route: Route, key: string, tm: ResponseTags, error: bool, stamped: bool)
    requires Shaped(tm)
    ensures Total(ResponseUpdatesWith(s, route, key, tm, error, stamped), MetricKey(Counter, "response.completed.aggregated_per_service", tm.overallAggregatedPerService)) == (if s.shard != NullTag then 1 else 0)
  {
    MapsApart(tm);
    ExpandCounter(s, route, key, tm, error, stamped, MetricKey(Counter, "response.completed.aggregated_per_service", tm.overallAggregatedPerService));
  }

  lemma CompletedClusterCount(s: Setup, route: Route, key: string, tm: ResponseTags, error: bool, stamped: bool)
    requires Shaped(tm)
    ensures Total(ResponseUpdatesWith(s, route, key, tm, error, stamped), MetricKey(DeltaCounter, "response.completed.aggregated_per_cluster", tm.overallAggregatedPerCluster)) == (if s.cluster != NullTag then 1 else 0)
  {
    OverallNamesDistinct();
    MapsApart(tm);
    ExpandDelta(s, route, key, tm, error, stamped, MetricKey(DeltaCounter, "response.completed.aggregated_per_cluster", tm.overallAggregatedPerCluster));
  }

  lemma CompletedApplicationCount(s: Setup, route: Route, key: string, tm: ResponseTags, error: bool, stamped: bool)
    requires Shaped(tm)
    ensures Total(ResponseUpdatesWith(s, route, key, tm, error, stamped), MetricKey(Counter, "response.completed.aggregated_per_application", tm.overallAggregatedPerApplication)) == (if s.cluster != NullTag then 1 else 0)
  {
    MapsApart(tm);
    ExpandCounter(s, route, key, tm, error, stamped, MetricKey(Counter, "response.completed.aggregated_per_application", tm.overallAggregatedPerApplication));
  }

  /** The completion counters of process_response, with the source's shard and cluster coupling. */
  lemma CompletedCountsWith(s: Setup, route: Route, key: string, tm: ResponseTags, error: bool, stamped: bool)
    requires Shaped(tm)
    ensures Total(ResponseUpdatesWith(s, route, key, tm, error, stamped), MetricKey(Counter, "response.completed.aggregated_per_source", tm.overallAggregatedPerSource))
            == 1
    ensures Total(ResponseUpdatesWith(s, route, key, tm, error, stamped), MetricKey(DeltaCounter, "response.completed.aggregated_per_shard", tm.overallAggregatedPerShard))
            == (if s.shard != NullTag then 1 else 0)
    ensures Total(ResponseUpdatesWith(s, route, key, tm, error, stamped), MetricKey(Counter, "response.completed.aggregated_per_service", tm.overallAggregatedPerService))
            == (if s.shard != NullTag then 1 else 0)
    ensures Total(ResponseUpdatesWith(s, route, key, tm, error, stamped), MetricKey(DeltaCounter, "response.completed.aggregated_per_cluster", tm.overallAggregatedPerCluster))
            == (if s.cluster != NullTag then 1 else 0)
    ensures Total(ResponseUpdatesWith(s, route, key, tm, error, stamped), MetricKey(Counter, "response.completed.aggregated_per_application", tm.overallAggregatedPerApplication))
            == (if s.cluster != NullTag then 1 else 0)
  {
    CompletedSourceCount(s, route, key, tm, error, stamped);
    CompletedShardCount(s, route, key, tm, error, stamped);
    CompletedServiceCount(s, route, key, tm, error, stamped);
    CompletedClusterCount(s, route, key, tm, error, stamped);
    CompletedApplicationCount(s, route, key, tm, error, stamped);
  }

  /** The two histograms of process_response get one sample each, only for a stamped request. */
  lemma HistogramCountsWith(s: Setup, route: Route, key: string, tm: ResponseTags, error: bool, stamped: bool)
    ensures Total(ResponseUpdatesWith(s, route, key, tm, error, stamped), MetricKey(Histogram, key + ".latency", tm.complete))
            == (if stamped then 1 else 0)
    ensures Total(ResponseUpdatesWith(s, route, key, tm, error, stamped), MetricKey(Histogram, key + ".cpu_ns", tm.complete))
            == (if stamped then 1 else 0)
  {
    HistogramNamesDistinct(key);
    Expand(s, route, key, tm, error, stamped, MetricKey(Histogram, key + ".latency", tm.complete));
    Expand(s, route, key, tm, error, stamped, MetricKey(Histogram, key + ".cpu_ns", tm.complete));
  }

  lemma HistogramNamesDistinct(key: string)
    ensures key + ".latency" != key + ".cpu_ns"
  {
    assert (key + ".latency")[|key| + 1] != (key + ".cpu_ns")[|key| + 1];
  }

  lemma ErrorsNameDots()
    ensures Dots("response.errors") == 1
  {
  }

  lemma CumulativeSuffixDots()
    ensures Dots(".cumulative") == 1
  {
  }

  lemma CumulativeDots(key: string)
    ensures Dots(key + ".cumulative") == Dots(key) + 1
  {
    CumulativeSuffixDots();
    assert multiset(key + ".cumulative") == multiset(key) + multiset(".cumulative");
  }

  lemma DotsDiffer(a: string, b: string)
    requires Dots(a) != Dots(b)
    ensures a != b
  {
  }

  /** With dot-free prefixes the three full-scope counter names of a response differ. */
  lemma NamesApartHolds(s: Setup, route: Route, response: Response)
    requires s.c.DotFreePrefixes()
    ensures NamesApart(ResponseKey(s, route, response), GetMetricNameWithoutStatus(s.c, route.entityName, route.httpMethod))
  {
    var key := ResponseKey(s, route, response);
    var requestName := GetMetricNameWithoutStatus(s.c, route.entityName, route.httpMethod);
    NameDots(s, route, response);
    CumulativeDots(key);
    ErrorsNameDots();
    DotsDiffer(key + ".cumulative", requestName);
    DotsDiffer(key + ".cumulative", "response.errors");
    DotsDiffer(requestName, "response.errors");
  }

  /** Under a valid setup the completion block's gates are the configured dimensions. */
  lemma CompletedGatesAgree(s: Setup)
    requires s.Valid()
    ensures s.shard != NullTag <==> Truthy(s.tags.shard)
    ensures s.cluster != NullTag <==> Truthy(s.tags.cluster)
  {
  }

  /**
   * process_response bumps the per-endpoint cumulative, per-service and
   * per-application counters once, and the per-shard and per-cluster ones
   * once exactly when that dimension is configured.
   */
  lemma RollupCounts(s: Setup, route: Route, response: Response, stamped: bool)
    requires s.Valid() && route.moduleName != "" && s.c.DotFreePrefixes()
    ensures var us, key, tm := ResponseUpdates(s, route, response, stamped), ResponseKey(s, route, response), ResponseTagMaps(s, route);
            && Total(us, MetricKey(Counter, key + ".cumulative", tm.complete)) == 1
            && Total(us, MetricKey(DeltaCounter, key + ".aggregated_per_shard", tm.aggregatedPerShard))
               == (if Truthy(s.tags.shard) then 1 else 0)
            && Total(us, MetricKey(DeltaCounter, key + ".aggregated_per_service", tm.aggregatedPerService)) == 1
            && Total(us, MetricKey(DeltaCounter, key + ".aggregated_per_cluster", tm.aggregatedPerCluster))
               == (if Truthy(s.tags.cluster) then 1 else 0)
            && Total(us, MetricKey(DeltaCounter, key + ".aggregated_per_application", tm.aggregatedPerApplication)) == 1
  {
    ResponseTagMapsShaped(s, route);
    NamesApartHolds(s, route, response);
    RollupCountsWith(s, route, ResponseKey(s, route, response), ResponseTagMaps(s, route), IsErrorStatusCode(response), stamped);
  }

  /** The error counters move, once each (shard and cluster as configured), exactly for a 4xx or 5xx status. */
  lemma ErrorCounts(s: Setup, route: Route, response: Response, stamped: bool)
    requires s.Valid() && route.moduleName != "" && s.c.DotFreePrefixes()
    ensures var us, tm, error := ResponseUpdates(s, route, response, stamped), ResponseTagMaps(s, route),
                                 400 <= response.statusCode <= 599;
            && Total(us, MetricKey(Counter, GetMetricNameWithoutStatus(s.c, route.entityName, route.httpMethod), tm.complete))
               == (if error then 1 else 0)
            && Total(us, MetricKey(Counter, "response.errors", tm.complete)) == (if error then 1 else 0)
            && Total(us, MetricKey(Counter, "response.errors.aggregated_per_source", tm.overallAggregatedPerSource))
               == (if error then 1 else 0)
            && Total(us, MetricKey(DeltaCounter, "response.errors.aggregated_per_shard", tm.overallAggregatedPerShard))
               == (if error && Truthy(s.tags.shard) then 1 else 0)
            && Total(us, MetricKey(DeltaCounter, "response.errors.aggregated_per_service", tm.overallAggregatedPerService))
               == (if error then 1 else 0)
            && Total(us, MetricKey(DeltaCounter, "response.errors.aggregated_per_cluster", tm.overallAggregatedPerCluster))
               == (if error && Truthy(s.tags.cluster) then 1 else 0)
            && Total(us, MetricKey(DeltaCounter, "response.errors.aggregated_per_application", tm.overallAggregatedPerApplication))
               == (if error then 1 else 0)
  {
    ResponseTagMapsShaped(s, route);
    NamesApartHolds(s, route, response);
    ErrorCountsWith(s, route, ResponseKey(s, route, response), ResponseTagMaps(s, route), IsErrorStatusCode(response), stamped);
  }

  /**
   * The completion counters: per-source always; per-shard and per-service
   * only with a shard, per-cluster and per-application only with a cluster.
   */
  lemma CompletedCounts(s: Setup, route: Route, response: Response, stamped: bool)
    requires s.Valid() && route.moduleName != ""
    ensures var us, tm := ResponseUpdates(s, route, response, stamped), ResponseTagMaps(s, route);
            && Total(us, MetricKey(Counter, "response.completed.aggregated_per_source", tm.overallAggregatedPerSource)) == 1
            && Total(us, MetricKey(DeltaCounter, "response.completed.aggregated_per_shard", tm.overallAggregatedPerShard))
               == (if Truthy(s.tags.shard) then 1 else 0)
            && Total(us, MetricKey(Counter, "response.completed.aggregated_per_service", tm.overallAggregatedPerService))
               == (if Truthy(s.tags.shard) then 1 else 0)
            && Total(us, MetricKey(DeltaCounter, "response.completed.aggregated_per_cluster", tm.overallAggregatedPerCluster))
               == (if Truthy(s.tags.cluster) then 1 else 0)
            && Total(us, MetricKey(Counter, "response.completed.aggregated_per_application", tm.overallAggregatedPerApplication))
               == (if Truthy(s.tags.cluster) then 1 else 0)
  {
    ResponseTagMapsShaped(s, route);
    CompletedGatesAgree(s);
    CompletedCountsWith(s, route, ResponseKey(s, route, response), ResponseTagMaps(s, route), IsErrorStatusCode(response), stamped);
  }

  /** One latency and one CPU-time sample, exactly when the request was stamped. */
  lemma HistogramCounts(s: Setup, route: Route, response: Response, stamped: bool)
    ensures var us, key, tm := ResponseUpdates(s, route, response, stamped), ResponseKey(s, route, response), ResponseTagMaps(s, route);
            && Total(us, MetricKey(Histogram, key + ".latency", tm.complete)) == (if stamped then 1 else 0)
            && Total(us, MetricKey(Histogram, key + ".cpu_ns", tm.complete)) == (if stamped then 1 else 0)
  {
    HistogramCountsWith(s, route, ResponseKey(s, route, response), ResponseTagMaps(s, route), IsErrorStatusCode(response), stamped);
  }

  // ---------------------------------------------------------------------------
  // Which metrics exist afterwards

  /** Apart from gauges, every update raises its metric. */
  predicate RaisesNonGauges(us: seq<Update>) {
    forall i :: 0 <= i < |us| && us[i].key.kind != Gauge ==> us[i].delta > 0
  }

  lemma RaisesNonGaugesAppend(a: seq<Update>, b: seq<Update>)
    requires RaisesNonGauges(a) && RaisesNonGauges(b)
    ensures RaisesNonGauges(a + b)
  {
    forall i | 0 <= i < |a + b| && (a + b)[i].key.kind != Gauge ensures (a + b)[i].delta > 0 {
      if i >= |a| {
        assert (a + b)[i] == b[i - |a|];
      }
    }
  }

  lemma ResponseRaisesNonGauges(s: Setup, route: Route, key: string, tm: ResponseTags, error: bool, stamped: bool)
    ensures RaisesNonGauges(ResponseUpdatesWith(s, route, key, tm, error, stamped))
  {
    var a := InflightUpdates(s, route, -1);
    var b := RollupUpdates(s, key, tm);
    var e := When(error, ErrorUpdates(s, route, tm));
    var c := CompletedUpdates(s, tm);
    var h := When(stamped, HistogramUpdates(key, tm));
    RaisesNonGaugesAppend(a, b);
    RaisesNonGaugesAppend(a + b, e);
    RaisesNonGaugesAppend(a + b + e, c);
    RaisesNonGaugesAppend(a + b + e + c, h);
  }

  /**
   * After process_response a counter, delta counter or histogram is
   * registered exactly when it was before or process_response moved it: the
   * gated ones appear only when their gate holds.
   */
  lemma CounterPresence(m: Table, s: Setup, route: Route, response: Response, stamped: bool, k: MetricKey)
    requires k.kind != Gauge
    ensures k in ApplyAll(m, ResponseUpdates(s, route, response, stamped))
            <==> k in m || Total(ResponseUpdates(s, route, response, stamped), k) > 0
  {
    var us := ResponseUpdates(s, route, response, stamped);
    ResponseRaisesNonGauges(s, route, ResponseKey(s, route, response), ResponseTagMaps(s, route), IsErrorStatusCode(response), stamped);
    RaisedIffTouched(us, k);
    ApplyAllEffect(m, us, k);
  }

  /**
   * After process_view and process_response of one request every gauge's
   * value, a never-set gauge counting as 0 as update_gauge counts it, is what
   * it was before; a gauge this request touched for the first time is left
   * registered at 0.
   */
  lemma InflightBalanced(m: Table, s: Setup, route: Route, response: Response, stamped: bool, k: MetricKey)
    requires k.kind == Gauge
    ensures Current(ApplyAll(ApplyAll(m, ViewUpdates(s, route)), ResponseUpdates(s, route, response, stamped)), k)
            == Current(m, k)
  {
    ApplyAllEffect(m, ViewUpdates(s, route), k);
    ApplyAllEffect(ApplyAll(m, ViewUpdates(s, route)), ResponseUpdates(s, route, response, stamped), k);
    GaugesNetZero(s, route, response, stamped, k);
  }

  /** process_view raises the entity and the overall inflight gauge by one each. */
  lemma ViewCounts(m: Table, s: Setup, route: Route)
    requires s.Valid()
    ensures Current(ApplyAll(m, ViewUpdates(s, route)), EntityInflightKey(s, route)) == Current(m, EntityInflightKey(s, route)) + 1
    ensures Current(ApplyAll(m, ViewUpdates(s, route)), TotalInflightKey(s)) == Current(m, TotalInflightKey(s)) + 1
  {
    var us := ViewUpdates(s, route);
    InflightPairTotal(s, route, 1, EntityInflightKey(s, route));
    InflightPairTotal(s, route, 1, TotalInflightKey(s));
    ApplyAllEffect(m, us, EntityInflightKey(s, route));
    ApplyAllEffect(m, us, TotalInflightKey(s));
    TextsNonEmpty(s);
    assert ClusterKey in TotalInflightKey(s).tags && ClusterKey !in EntityInflightKey(s, route).tags;
  }

  /** The dimension values the middleware tags with are the ones `get_as_list` reports. */
  lemma IdentityMatchesList(s: Setup)
    requires s.Valid()
    ensures var l := s.tags.GetAsList(s.c);
            && Text(s.service, s.c) == l[1].1
            && Text(s.cluster, s.c) == l[2].1
            && Text(s.shard, s.c) == l[3].1
  {
  }
}
