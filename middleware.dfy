/**
 * The Django middleware object: its start-up configuration, and the two hooks
 * Django calls around a view. Each hook is proved to apply exactly the update
 * list its specification function in `Instrumentation` lists.
 */
module Middleware {
  import opened Wrappers
  import opened PyStrings
  import opened SdkConstants
  import opened AppTags
  import opened Naming
  import opened MetricRegistry
  import opened Instrumentation

  /** The parts of a Django request the middleware reads, and the start stamp it writes. */
  class Request {
    const httpMethod: string
    const resolverMatch: Option<ResolverMatch>
    /** `resolve(request.path_info).func.__name__` and `.__module__`. */
    const funcName: string
    const moduleName: string
    /** Whether `wf_start_timestamp` has been set on the request. */
    var stamped: bool

    constructor (httpMethod: string, resolverMatch: Option<ResolverMatch>, funcName: string, moduleName: string)
      ensures this.httpMethod == httpMethod && this.resolverMatch == resolverMatch
      ensures this.funcName == funcName && this.moduleName == moduleName
      ensures !stamped
    {
      this.httpMethod := httpMethod;
      this.resolverMatch := resolverMatch;
      this.funcName := funcName;
      this.moduleName := moduleName;
      stamped := false;
    }

    /** The names both hooks recompute from the request. */
    function RouteOf(): Route {
      Route(GetEntityName(resolverMatch), httpMethod, moduleName, funcName)
    }
  }

  /**
   * `update_gauge`: read the gauge, count a never-set (NaN) gauge as zero,
   * and store the old value plus `val`.
   */
  method UpdateGauge(registry: Registry, key: string, tags: TagMap, val: int)
    modifies registry
    ensures registry.metrics == Apply(old(registry.metrics), Update(MetricKey(Gauge, key, tags), val))
  {
    var cur := registry.GetGaugeValue(key, tags);
    var curVal := if cur.NaN? then 0 else cur.value;
    registry.SetGaugeValue(key, tags, curVal + val);
  }

  class WavefrontMiddleware {
    /** `MIDDLEWARE_ENABLED`. */
    const enabled: bool
    /** When enabled: the constants, `application_tags` and the `CLUSTER`, `SERVICE` and `SHARD` values. */
    const setup: Option<Setup>
    /** `APPLICATION`, which no hook reads. */
    const application: TagValue
    /** `reg`, the registry the reporter flushes. */
    const reg: Registry

    predicate Valid() {
      && (enabled <==> setup.Some?)
      && (setup.Some? ==> setup.value.Valid())
    }

    /**
     * The middleware turns itself on only when the reporter, the application
     * tags and the tracer are all configured; the tag values then fall back
     * to the null tag value for a falsy dimension.
     */
    constructor (c: Constants, reporterConfigured: bool, applicationTags: Option<ApplicationTags>, tracingConfigured: bool)
      requires c.Valid()
      requires applicationTags.Some? ==> applicationTags.value.Valid()
      ensures Valid() && fresh(reg) && reg.metrics == map[]
      ensures enabled <==> reporterConfigured && applicationTags.Some? && tracingConfigured
      ensures enabled ==>
                var t := applicationTags.value;
                && setup == Some(Setup(c, t, OrNull(t.cluster), OrNull(Some(t.service)), OrNull(t.shard)))
                && application == OrNull(Some(t.application))
    {
      reg := new Registry();
      if reporterConfigured && applicationTags.Some? && tracingConfigured {
        var t := applicationTags.value;
        application := OrNull(Some(t.application));
        setup := Some(Setup(c, t, OrNull(t.cluster), OrNull(Some(t.service)), OrNull(t.shard)));
        enabled := true;
      } else {
        application := NullTag;
        setup := None;
        enabled := false;
      }
    }

    /**
     * `process_view`: when enabled, stamp the request and raise the entity
     * and the overall inflight gauges by one; when disabled, do nothing.
     */
    method ProcessView(request: Request)
      requires Valid()
      modifies reg, request
      ensures !enabled ==> reg.metrics == old(reg.metrics) && request.stamped == old(request.stamped)
      ensures enabled ==> request.stamped
      ensures enabled ==> reg.metrics == ApplyAll(old(reg.metrics), ViewUpdates(setup.value, request.RouteOf()))
    {
      if !enabled {
        return;
      }
      request.stamped := true;
      UpdateInflight(setup.value, request.RouteOf(), 1);
    }

    /**
     * `process_response`: when enabled, lower both inflight gauges, bump the
     * per-endpoint, error and completion counters and, for a stamped request,
     * record the two timing samples; the response is returned as it came.
     */
    method ProcessResponse(request: Request, response: Response) returns (r: Response)
      requires Valid()
      modifies reg
      ensures r == response
      ensures !enabled ==> reg.metrics == old(reg.metrics)
      ensures enabled ==> reg.metrics == ApplyAll(old(reg.metrics),
                                                  ResponseUpdates(setup.value, request.RouteOf(), response, request.stamped))
    {
      r := response;
      if !enabled {
        return;
      }
      Respond(setup.value, request.RouteOf(), response, request.stamped);
    }

    /** The body of an enabled process_response, given the route and whether the request was stamped. */
    method Respond(s: Setup, route: Route, response: Response, stamped: bool)
      modifies reg
      ensures reg.metrics == ApplyAll(old(reg.metrics), ResponseUpdates(s, route, response, stamped))
    {
      var key := GetMetricName(s.c, route.entityName, route.httpMethod, Some(response));
      var tm := MakeResponseTags(s, route);
      EmitResponseMetrics(s, route, key, tm, IsErrorStatusCode(response), stamped);
    }

    /** Everything process_response does to the registry once the names and tag maps are known. */
    method EmitResponseMetrics(s: Setup, route: Route, key: string, tm: ResponseTags, error: bool, stamped: bool)
      modifies reg
      ensures reg.metrics == ApplyAll(old(reg.metrics), ResponseUpdatesWith(s, route, key, tm, error, stamped))
    {
      ghost var m0 := reg.metrics;
      UpdateInflight(s, route, -1);
      EmitRollup(s, key, tm);
      ghost var m2 := reg.metrics;
      if error {
        EmitErrors(s, route, tm);
      } else {
        assert ApplyAll(m2, When(error, ErrorUpdates(s, route, tm))) == m2;
      }
      EmitCompleted(s, tm);
      ghost var m4 := reg.metrics;
      if stamped {
        EmitHistograms(key, tm);
      } else {
        assert ApplyAll(m4, When(stamped, HistogramUpdates(key, tm))) == m4;
      }
      ApplyResponseSegments(m0, s, route, key, tm, error, stamped);
    }

    /** The two `update_gauge` calls both hooks make, by `val`. */
    method UpdateInflight(s: Setup, route: Route, val: int)
      modifies reg
      ensures reg.metrics == ApplyAll(old(reg.metrics), InflightUpdates(s, route, val))
    {
      ghost var m0 := reg.metrics;
      var tags := GetTagsMap(moduleName := Some(route.moduleName), funcName := Some(route.funcName));
      UpdateGauge(reg, GetMetricName(s.c, route.entityName, route.httpMethod) + ".inflight", tags, val);
      ghost var m1 := reg.metrics;
      tags := GetTagsMap(cluster := Some(Text(s.cluster, s.c)), service := Some(Text(s.service, s.c)),
                         shard := Some(Text(s.shard, s.c)));
      UpdateGauge(reg, "total_requests.inflight", tags, val);
      ghost var u := Update(EntityInflightKey(s, route), val);
      ghost var v := Update(TotalInflightKey(s), val);
      assert m1 == Apply(m0, u);
      assert reg.metrics == Apply(m1, v);
      ApplyPair(m0, u, v);
    }

    /** The ten `get_tags_map` calls of process_response. */
    method MakeResponseTags(s: Setup, route: Route) returns (tm: ResponseTags)
      ensures tm == ResponseTagMaps(s, route)
    {
      var cl, sv, sh := Some(Text(s.cluster, s.c)), Some(Text(s.service, s.c)), Some(Text(s.shard, s.c));
      var mo, fu, src := Some(route.moduleName), Some(route.funcName), Some(s.c.wavefrontProvidedSource);
      var complete := GetTagsMap(cluster := cl, service := sv, shard := sh, moduleName := mo, funcName := fu);
      var aggregatedPerShard := GetTagsMap(cluster := cl, service := sv, shard := sh, moduleName := mo, funcName := fu, source := src);
      var overallAggregatedPerSource := GetTagsMap(cluster := cl, service := sv, shard := sh);
      var overallAggregatedPerShard := GetTagsMap(cluster := cl, service := sv, shard := sh, source := src);
      var aggregatedPerService := GetTagsMap(cluster := cl, service := sv, moduleName := mo, funcName := fu, source := src);
      var overallAggregatedPerService := GetTagsMap(cluster := cl, service := sv, source := src);
      var aggregatedPerCluster := GetTagsMap(cluster := cl, moduleName := mo, funcName := fu, source := src);
      var overallAggregatedPerCluster := GetTagsMap(cluster := cl, source := src);
      var aggregatedPerApplication := GetTagsMap(moduleName := mo, funcName := fu, source := src);
      var overallAggregatedPerApplication := GetTagsMap(source := src);
      tm := ResponseTags(complete, aggregatedPerShard, overallAggregatedPerSource, overallAggregatedPerShard,
                         aggregatedPerService, overallAggregatedPerService, aggregatedPerCluster,
                         overallAggregatedPerCluster, aggregatedPerApplication, overallAggregatedPerApplication);
    }

    /** The per-endpoint counters. */
    method EmitRollup(s: Setup, key: string, tm: ResponseTags)
      modifies reg
      ensures reg.metrics == ApplyAll(old(reg.metrics), RollupUpdates(s, key, tm))
    {
      ghost var m0 := reg.metrics;
      ghost var done: seq<Update> := [];
      reg.IncCounter(key + ".cumulative", tm.complete);
      ApplyAllSnoc(m0, done, Update(MetricKey(Counter, key + ".cumulative", tm.complete), 1));
      done := done + [Update(MetricKey(Counter, key + ".cumulative", tm.complete), 1)];
      assert reg.metrics == ApplyAll(m0, done);
      ghost var before := reg.metrics;
      if Truthy(s.tags.shard) {
        reg.IncDeltaCounter(key + ".aggregated_per_shard", tm.aggregatedPerShard);
        ApplyOne(before, Update(MetricKey(DeltaCounter, key + ".aggregated_per_shard", tm.aggregatedPerShard), 1));
      }
      ApplyWhen(m0, done, Truthy(s.tags.shard), [Update(MetricKey(DeltaCounter, key + ".aggregated_per_shard", tm.aggregatedPerShard), 1)]);
      done := done + When(Truthy(s.tags.shard), [Update(MetricKey(DeltaCounter, key + ".aggregated_per_shard", tm.aggregatedPerShard), 1)]);
      assert reg.metrics == ApplyAll(m0, done);
      reg.IncDeltaCounter(key + ".aggregated_per_service", tm.aggregatedPerService);
      ApplyAllSnoc(m0, done, Update(MetricKey(DeltaCounter, key + ".aggregated_per_service", tm.aggregatedPerService), 1));
      done := done + [Update(MetricKey(DeltaCounter, key + ".aggregated_per_service", tm.aggregatedPerService), 1)];
      assert reg.metrics == ApplyAll(m0, done);
      before := reg.metrics;
      if Truthy(s.tags.cluster) {
        reg.IncDeltaCounter(key + ".aggregated_per_cluster", tm.aggregatedPerCluster);
        ApplyOne(before, Update(MetricKey(DeltaCounter, key + ".aggregated_per_cluster", tm.aggregatedPerCluster), 1));
      }
      ApplyWhen(m0, done, Truthy(s.tags.cluster), [Update(MetricKey(DeltaCounter, key + ".aggregated_per_cluster", tm.aggregatedPerCluster), 1)]);
      done := done + When(Truthy(s.tags.cluster), [Update(MetricKey(DeltaCounter, key + ".aggregated_per_cluster", tm.aggregatedPerCluster), 1)]);
      assert reg.metrics == ApplyAll(m0, done);
      reg.IncDeltaCounter(key + ".aggregated_per_application", tm.aggregatedPerApplication);
      ApplyAllSnoc(m0, done, Update(MetricKey(DeltaCounter, key + ".aggregated_per_application", tm.aggregatedPerApplication), 1));
      done := done + [Update(MetricKey(DeltaCounter, key + ".aggregated_per_application", tm.aggregatedPerApplication), 1)];
      assert reg.metrics == ApplyAll(m0, done);
      assert done == RollupUpdates(s, key, tm);
    }

    /** The error counters, for a 4xx or 5xx status. */
    method EmitErrors(s: Setup, route: Route, tm: ResponseTags)
      modifies reg
      ensures reg.metrics == ApplyAll(old(reg.metrics), ErrorUpdates(s, route, tm))
    {
      var name := GetMetricNameWithoutStatus(s.c, route.entityName, route.httpMethod);
      ghost var m0 := reg.metrics;
      ghost var done: seq<Update> := [];
      reg.IncCounter(name, tm.complete);
      ApplyAllSnoc(m0, done, Update(MetricKey(Counter, name, tm.complete), 1));
      done := done + [Update(MetricKey(Counter, name, tm.complete), 1)];
      assert reg.metrics == ApplyAll(m0, done);
      reg.IncCounter("response.errors", tm.complete);
      ApplyAllSnoc(m0, done, Update(MetricKey(Counter, "response.errors", tm.complete), 1));
      done := done + [Update(MetricKey(Counter, "response.errors", tm.complete), 1)];
      assert reg.metrics == ApplyAll(m0, done);
      reg.IncCounter("response.errors.aggregated_per_source", tm.overallAggregatedPerSource);
      ApplyAllSnoc(m0, done, Update(MetricKey(Counter, "response.errors.aggregated_per_source", tm.overallAggregatedPerSource), 1));
      done := done + [Update(MetricKey(Counter, "response.errors.aggregated_per_source", tm.overallAggregatedPerSource), 1)];
      assert reg.metrics == ApplyAll(m0, done);
      ghost var before := reg.metrics;
      if Truthy(s.tags.shard) {
        reg.IncDeltaCounter("response.errors.aggregated_per_shard", tm.overallAggregatedPerShard);
        ApplyOne(before, Update(MetricKey(DeltaCounter, "response.errors.aggregated_per_shard", tm.overallAggregatedPerShard), 1));
      }
      ApplyWhen(m0, done, Truthy(s.tags.shard), [Update(MetricKey(DeltaCounter, "response.errors.aggregated_per_shard", tm.overallAggregatedPerShard), 1)]);
      done := done + When(Truthy(s.tags.shard), [Update(MetricKey(DeltaCounter, "response.errors.aggregated_per_shard", tm.overallAggregatedPerShard), 1)]);
      assert reg.metrics == ApplyAll(m0, done);
      reg.IncDeltaCounter("response.errors.aggregated_per_service", tm.overallAggregatedPerService);
      ApplyAllSnoc(m0, done, Update(MetricKey(DeltaCounter, "response.errors.aggregated_per_service", tm.overallAggregatedPerService), 1));
      done := done + [Update(MetricKey(DeltaCounter, "response.errors.aggregated_per_service", tm.overallAggregatedPerService), 1)];
      assert reg.metrics == ApplyAll(m0, done);
      before := reg.metrics;
      if Truthy(s.tags.cluster) {
        reg.IncDeltaCounter("response.errors.aggregated_per_cluster", tm.overallAggregatedPerCluster);
        ApplyOne(before, Update(MetricKey(DeltaCounter, "response.errors.aggregated_per_cluster", tm.overallAggregatedPerCluster), 1));
      }
      ApplyWhen(m0, done, Truthy(s.tags.cluster), [Update(MetricKey(DeltaCounter, "response.errors.aggregated_per_cluster", tm.overallAggregatedPerCluster), 1)]);
      done := done + When(Truthy(s.tags.cluster), [Update(MetricKey(DeltaCounter, "response.errors.aggregated_per_cluster", tm.overallAggregatedPerCluster), 1)]);
      assert reg.metrics == ApplyAll(m0, done);
      reg.IncDeltaCounter("response.errors.aggregated_per_application", tm.overallAggregatedPerApplication);
      ApplyAllSnoc(m0, done, Update(MetricKey(DeltaCounter, "response.errors.aggregated_per_application", tm.overallAggregatedPerApplication), 1));
      done := done + [Update(MetricKey(DeltaCounter, "response.errors.aggregated_per_application", tm.overallAggregatedPerApplication), 1)];
      assert reg.metrics == ApplyAll(m0, done);
      assert done == ErrorUpdates(s, route, tm);
    }

    /** One latency and one CPU-time sample; the durations themselves are not modelled. */
    method EmitHistograms(key: string, tm: ResponseTags)
      modifies reg
      ensures reg.metrics == ApplyAll(old(reg.metrics), HistogramUpdates(key, tm))
    {
      ghost var m0 := reg.metrics;
      reg.AddHistogramSample(key + ".latency", tm.complete);
      reg.AddHistogramSample(key + ".cpu_ns", tm.complete);
      ApplyPair(m0, Update(MetricKey(Histogram, key + ".latency", tm.complete), 1),
                Update(MetricKey(Histogram, key + ".cpu_ns", tm.complete), 1));
    }

    /** The completion counters, gated on identity with the null tag value as in the source. */
    method EmitCompleted(s: Setup, tm: ResponseTags)
      modifies reg
      ensures reg.metrics == ApplyAll(old(reg.metrics), CompletedUpdates(s, tm))
    {
      ghost var m0 := reg.metrics;
      ghost var done: seq<Update> := [];
      reg.IncCounter("response.completed.aggregated_per_source", tm.overallAggregatedPerSource);
      ApplyAllSnoc(m0, done, Update(MetricKey(Counter, "response.completed.aggregated_per_source", tm.overallAggregatedPerSource), 1));
      done := done + [Update(MetricKey(Counter, "response.completed.aggregated_per_source", tm.overallAggregatedPerSource), 1)];
      assert reg.metrics == ApplyAll(m0, done);
      ghost var shardPair := [Update(MetricKey(DeltaCounter, "response.completed.aggregated_per_shard", tm.overallAggregatedPerShard), 1),
                              Update(MetricKey(Counter, "response.completed.aggregated_per_service", tm.overallAggregatedPerService), 1)];
      ghost var before := reg.metrics;
      if s.shard != NullTag {
        reg.IncDeltaCounter("response.completed.aggregated_per_shard", tm.overallAggregatedPerShard);
        reg.IncCounter("response.completed.aggregated_per_service", tm.overallAggregatedPerService);
        ApplyPair(before, shardPair[0], shardPair[1]);
      }
      ApplyWhen(m0, done, s.shard != NullTag, shardPair);
      done := done + When(s.shard != NullTag, shardPair);
      assert reg.metrics == ApplyAll(m0, done);
      ghost var clusterPair := [Update(MetricKey(DeltaCounter, "response.completed.aggregated_per_cluster", tm.overallAggregatedPerCluster), 1),
                                Update(MetricKey(Counter, "response.completed.aggregated_per_application", tm.overallAggregatedPerApplication), 1)];
      before := reg.metrics;
      if s.cluster != NullTag {
        reg.IncDeltaCounter("response.completed.aggregated_per_cluster", tm.overallAggregatedPerCluster);
        reg.IncCounter("response.completed.aggregated_per_application", tm.overallAggregatedPerApplication);
        ApplyPair(before, clusterPair[0], clusterPair[1]);
      }
      ApplyWhen(m0, done, s.cluster != NullTag, clusterPair);
      done := done + When(s.cluster != NullTag, clusterPair);
      assert reg.metrics == ApplyAll(m0, done);
      assert done == CompletedUpdates(s, tm);
    }
  }
}
