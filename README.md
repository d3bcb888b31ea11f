# Wavefront Django middleware: a Dafny model

This project models the per-request instrumentation of the Wavefront Django
SDK. The `WavefrontMiddleware` object switches itself on only when a reporter,
the application tags and a tracer are configured. Around every view it then
updates a tagged metric registry:

- `process_view` raises two inflight gauges, one per endpoint and one overall.
- `process_response` lowers the same two gauges.
- It bumps the per-endpoint cumulative and delta counters.
- For a 4xx or 5xx status it bumps the error counters.
- It bumps the completion counters.
- For a request that `process_view` stamped, it records one latency sample and
  one CPU-time sample.

The model also covers the helpers these hooks use:

- `get_tags_map`;
- `get_entity_name`, with its sanitising;
- `get_metric_name` and `get_metric_name_without_status`;
- `is_error_status_code`;
- `update_gauge`.

It also models the `ApplicationTags` record: its validating constructor, its
properties and `get_as_list`.

Layout, one module per file:

- `wrappers.dfy` (`Wrappers`): `Option` and `Result`.
- `strings.dfy` (`PyStrings`): the Python string built-ins the source calls, which are truthiness, `replace`, `lstrip`/`rstrip`, `join` and `str(int)`.
- `constants.dfy` (`SdkConstants`): the SDK constants.
  - Their module is not part of this model, so they are an uninterpreted record.
  - `Valid()` says they are non-empty and pairwise different where they play different roles.
- `application_tags.dfy` (`AppTags`): `ApplicationTags`.
- `naming.dfy` (`Naming`): the static helpers of the middleware.
- `registry.dfy` (`MetricRegistry`): the registry.
  - It is a class owning a table from (kind, name, tags) to a number.
  - The number is a gauge's value, a counter's count or a histogram's sample count.
  - The file also has the algebra of update lists.
- `instrumentation.dfy` (`Instrumentation`): what one request does to the registry.
  - The changes of each hook are written as an ordered list of updates.
  - The lemmas state, per metric, the net change.
- `middleware.dfy` (`Middleware`): the `Request` and `WavefrontMiddleware` classes.
  - Their methods change the registry call by call, as the source does.
  - Each method is proved to apply exactly the update list of its specification function.

Points where the code differs from what its names and comments suggest (the model follows the code):

- The comment at `middleware.py:211` names the per-endpoint error counter `...make.GET.errors`. The code at `middleware.py:236` names it `get_metric_name_without_status(...)`, which is `<request prefix>.<entity>.<method>`, with no `.errors` suffix.
- The completion block gates on identity with the null tag value, not on the application tags (`middleware.py:261`, `middleware.py:267`).
  - As written, the per-service completion counter moves only with a shard, and the per-application one only with a cluster.
  - `CompletedGatesAgree` shows that, for a validly built middleware, these gates coincide with "shard/cluster configured".
- `self.CLUSTER`, `self.SERVICE` and `self.SHARD` fall back to the null tag value, which is truthy. Every tag map that is given them carries the key, with the null tag value when the dimension is absent.

## Model

| member | source | states |
|---|---|---|
| PyStrings.ReplaceChar | wavefront_django_sdk_python/middleware.py:310-311 | `str.replace` of one character: same length, every occurrence of `a` becomes `b`, every other character is kept |
| PyStrings.LStrip | wavefront_django_sdk_python/middleware.py:314 | `lstrip('.')` drops exactly the leading run of `.`: the result is a suffix, everything dropped is `.`, and the result does not start with `.` |
| PyStrings.RStrip | wavefront_django_sdk_python/middleware.py:314 | `rstrip('.')` drops exactly the trailing run of `.`: the result is a prefix, everything dropped is `.`, and the result does not end with `.` |
| PyStrings.Join | wavefront_django_sdk_python/middleware.py:324 | `'.'.join(parts)` starts with the first part, and its length is the parts' total length plus one separator per gap |
| PyStrings.JoinAppend | wavefront_django_sdk_python/middleware.py:321-324 | appending a part to a non-empty list appends the separator and that part to the joined text |
| PyStrings.IntToString | wavefront_django_sdk_python/middleware.py:321 | `str(status_code)` is non-empty, has no `.`, and starts with `-` exactly for a negative code |
| PyStrings.IntToStringRoundTrip | wavefront_django_sdk_python/middleware.py:321 | reading `str(i)` back as an integer gives `i` |
| PyStrings.IntToStringInjective | wavefront_django_sdk_python/middleware.py:321 | different status codes render differently |
| AppTags.New | wavefront_django_sdk_python/application_tags.py:7-19 | fails with `AttributeError` on a falsy application, checked first, or on a falsy service; succeeds exactly when both are truthy; then stores every argument unchanged |
| AppTags.ApplicationTags.GetAsList | wavefront_django_sdk_python/application_tags.py:41-46 | exactly four pairs, keyed by the application, service, cluster and shard tag keys in that order; application and service are the stored values; cluster and shard are the stored value when truthy and the null tag value otherwise |
| AppTags.AsListRoundTrip | wavefront_django_sdk_python/application_tags.py:41-46 | for a record whose cluster and shard are not literally the null tag value, decoding the list, with the null tag value read as absent, recovers application, service, cluster and shard. An empty cluster or shard comes back absent |
| Naming.TagsMap | wavefront_django_sdk_python/middleware.py:286-301 | each of the six keys is present iff its argument is truthy, maps to that argument, and no other key is present |
| Naming.GetTagsMap | wavefront_django_sdk_python/middleware.py:286-301 | the step-by-step dictionary filling yields exactly `TagsMap` of the same arguments |
| Naming.ReplacePunctuation | wavefront_django_sdk_python/middleware.py:310-311 | the replacement chain keeps the length and maps `-`, `{`, `}` to `_` and `/` to `.`, character by character, keeping every other character |
| Naming.Sanitize | wavefront_django_sdk_python/middleware.py:310-314 | the sanitised name has no `-`, `/`, `{` or `}` and neither starts nor ends with `.` |
| Naming.SanitizeFixesSanitized | wavefront_django_sdk_python/middleware.py:310-314 | a name that is already clean and dot-trimmed is left unchanged |
| Naming.SanitizeIdempotent | wavefront_django_sdk_python/middleware.py:304-314 | sanitising twice gives the same as sanitising once |
| Naming.GetEntityName | wavefront_django_sdk_python/middleware.py:304-314 | "UNKNOWN" without a resolver match; otherwise the sanitised URL name, or the sanitised view name when the URL name is falsy; always sanitised |
| Naming.GetMetricName | wavefront_django_sdk_python/middleware.py:317-324 | with a response: response prefix, entity, method and `str(status)` joined by `.`; without one: request prefix, entity and method joined by `.` |
| Naming.ResponseNameDeterminesStatus | wavefront_django_sdk_python/middleware.py:317-324 | two responses on one route and method share a metric name only if their status codes are equal |
| Naming.GetMetricNameWithoutStatus | wavefront_django_sdk_python/middleware.py:326-330 | equals `get_metric_name` called without a response |
| Naming.IsErrorStatusCode | wavefront_django_sdk_python/middleware.py:332-334 | true exactly when status / 100 is 4 or 5, i.e. for 400..599 inclusive |
| MetricRegistry.Registry.constructor | wavefront_django_sdk_python/middleware.py:54 | `TaggedRegistry()` starts with no metric |
| MetricRegistry.Registry.GetGaugeValue | wavefront_django_sdk_python/middleware.py:338-339 | reads the stored value of the gauge, or NaN for a gauge never set |
| MetricRegistry.Registry.SetGaugeValue | wavefront_django_sdk_python/middleware.py:342 | stores the value under the gauge's key and changes nothing else |
| MetricRegistry.Registry.IncCounter | wavefront_django_sdk_python/middleware.py:212-213 | adds one to the counter, creating it at zero first, and changes nothing else |
| MetricRegistry.Registry.IncDeltaCounter | wavefront_django_sdk_python/middleware.py:215-217 | adds one to the delta counter, creating it at zero first, and changes nothing else |
| MetricRegistry.Registry.AddHistogramSample | wavefront_django_sdk_python/middleware.py:279-282 | counts one more sample in the histogram and changes nothing else |
| MetricRegistry.ApplyAllEffect | wavefront_django_sdk_python/middleware.py:127-282 | a sequence of registry updates changes each metric by exactly its net delta, and registers exactly the metrics it names that were not there |
| MetricRegistry.RaisedIffTouched | wavefront_django_sdk_python/middleware.py:212-282 | when every update of a metric raises it, the metric moves iff some update names it |
| Middleware.Request.constructor | wavefront_django_sdk_python/middleware.py:74-79 | the request carries its method, its resolver match and the resolved view's function and module names; it starts without the `wf_start_timestamp` stamp, which `process_view` sets (line 74) and `process_response` tests (line 276) |
| Middleware.UpdateGauge | wavefront_django_sdk_python/middleware.py:337-342 | the gauge becomes its old value plus `val`, a never-set (NaN) gauge counting as 0; every other metric is unchanged |
| Middleware.WavefrontMiddleware.constructor | wavefront_django_sdk_python/middleware.py:29-70 | enabled iff reporter, application tags and tracer are all configured; `CLUSTER`/`SERVICE`/`SHARD`/`APPLICATION` are the tag value or the null tag value; the registry starts empty |
| Middleware.WavefrontMiddleware.ProcessView | wavefront_django_sdk_python/middleware.py:71-96 | disabled: nothing changes; enabled: the request is stamped and the registry becomes the old one with both inflight gauges raised by one |
| Middleware.WavefrontMiddleware.ProcessResponse | wavefront_django_sdk_python/middleware.py:107-283 | returns the response; disabled: the registry is unchanged; enabled: the registry is the old one with exactly the update list of `ResponseUpdates` applied in source order |
| Middleware.WavefrontMiddleware.Respond | wavefront_django_sdk_python/middleware.py:110-282 | the enabled body of `process_response` applies exactly `ResponseUpdates` |
| Middleware.WavefrontMiddleware.EmitResponseMetrics | wavefront_django_sdk_python/middleware.py:127-282 | applies, in order, the inflight decrements, the per-endpoint counters, the error counters iff error, the completion counters and the histogram samples iff stamped |
| Middleware.WavefrontMiddleware.UpdateInflight | wavefront_django_sdk_python/middleware.py:127-143 | both inflight gauges move by `val`, the endpoint one first |
| Middleware.WavefrontMiddleware.MakeResponseTags | wavefront_django_sdk_python/middleware.py:148-204 | the ten tag maps are the ten `get_tags_map` calls of the source, argument for argument |
| Middleware.WavefrontMiddleware.EmitRollup | wavefront_django_sdk_python/middleware.py:212-227 | cumulative, per-shard if a shard is configured, per-service, per-cluster if a cluster is configured, per-application, in that order |
| Middleware.WavefrontMiddleware.EmitErrors | wavefront_django_sdk_python/middleware.py:234-252 | the request-name error counter, `response.errors`, per-source, per-shard if configured, per-service, per-cluster if configured, per-application |
| Middleware.WavefrontMiddleware.EmitCompleted | wavefront_django_sdk_python/middleware.py:259-272 | per-source always; the per-shard delta and per-service counters when `SHARD` is not the null tag value; the per-cluster delta and per-application counters when `CLUSTER` is not |
| Middleware.WavefrontMiddleware.EmitHistograms | wavefront_django_sdk_python/middleware.py:279-282 | one latency and one CPU-time sample, both under the full tag map |
| Instrumentation.ResponseTagMapsShaped | wavefront_django_sdk_python/middleware.py:148-204 | for a valid setup and a non-empty view module name, each of the ten maps carries exactly its scope's cluster, service, shard, module and source keys |
| Instrumentation.MapsApart | wavefront_django_sdk_python/middleware.py:148-204 | ten tag maps each shaped as its scope prescribes are pairwise different, so the same metric name under two scopes names two registry entries |
| Instrumentation.CompletedGatesAgree | wavefront_django_sdk_python/middleware.py:259-272 | for a validly built middleware, `SHARD is not NULL_TAG_VAL` holds iff the shard is configured, and likewise for the cluster |
| Instrumentation.NamesApartHolds | wavefront_django_sdk_python/middleware.py:212-238 | with dot-free prefixes, the cumulative counter, the request-name error counter and `response.errors` have three different names |
| Instrumentation.Expand | wavefront_django_sdk_python/middleware.py:212-282 | for any counter, delta counter or histogram, the net change of `process_response` is the sum over the listed updates whose key it is, each under its gate: no other metric moves |
| Instrumentation.ExpandCounter | wavefront_django_sdk_python/middleware.py:212-272 | for a cumulative counter, only the cumulative, request-name error, `response.errors`, error per-source and completion per-source/per-service/per-application updates can move it, each under its gate |
| Instrumentation.ExpandDelta | wavefront_django_sdk_python/middleware.py:214-270 | for a delta counter, only the per-endpoint, error and completion delta updates can move it, each under its gate |
| Instrumentation.GaugesNetZero | wavefront_django_sdk_python/middleware.py:80-143 | over `process_view` plus `process_response` the net change of every gauge is zero |
| Instrumentation.InflightBalanced | wavefront_django_sdk_python/middleware.py:80-143 | after `process_view` then `process_response` every gauge's value, a never-set gauge counting as 0 as `update_gauge` counts it, is what it was before; a gauge this request touched for the first time is left registered at 0 |
| Instrumentation.ViewCounts | wavefront_django_sdk_python/middleware.py:80-96 | `process_view` raises the endpoint inflight gauge and the overall inflight gauge by one each |
| Instrumentation.RollupCounts | wavefront_django_sdk_python/middleware.py:212-227 | cumulative, per-service and per-application move by exactly 1; per-shard by 1 iff the shard is configured, else 0; per-cluster by 1 iff the cluster is configured, else 0 |
| Instrumentation.RollupCountsWith | wavefront_django_sdk_python/middleware.py:212-227 | the same counts, for any shaped tag maps and any key whose three full-scope names differ |
| Instrumentation.ErrorCounts | wavefront_django_sdk_python/middleware.py:234-252 | each error counter moves by 1 iff 400 <= status <= 599, else 0; the per-shard and per-cluster ones additionally need their dimension |
| Instrumentation.ErrorCountsWith | wavefront_django_sdk_python/middleware.py:234-252 | the same counts, for any error flag, any shaped tag maps and any key whose three full-scope names differ |
| Instrumentation.CompletedCounts | wavefront_django_sdk_python/middleware.py:259-272 | per-source moves by 1 always; per-shard and per-service by 1 iff the shard is configured; per-cluster and per-application by 1 iff the cluster is configured |
| Instrumentation.CompletedCountsWith | wavefront_django_sdk_python/middleware.py:259-272 | the same counts, for shaped tag maps, in the source's own gates, identity with the null tag value |
| Instrumentation.HistogramCounts | wavefront_django_sdk_python/middleware.py:276-282 | the latency and CPU-time histograms each get one sample iff the request was stamped, else none |
| Instrumentation.HistogramCountsWith | wavefront_django_sdk_python/middleware.py:276-282 | the same, for any key and tag maps |
| Instrumentation.CounterPresence | wavefront_django_sdk_python/middleware.py:212-282 | after `process_response` a counter or histogram is registered iff it was before or the response moved it; a gated one is created only when its gate holds |
| Instrumentation.IdentityMatchesList | wavefront_django_sdk_python/middleware.py:50-52 | the service, cluster and shard values the middleware tags with are the entries `get_as_list` reports |

## Left out

- Tracing is not modelled: `DjangoTracing`, span tags, `_apply_tracing`, `_finish_tracing` and `initialize_global_tracer`. These are calls into a library outside this model.
- Reporter start, the heartbeat service and the reporter prefix are not modelled. They are background threads and library code.
- `get_conf` and the `isinstance` checks are reduced to the constructor's three "configured" inputs. They read Django settings and the environment.
- Logging is left out.
- `resolve(request.path_info)` is left out. The request's function name and module name are plain inputs, so the model assumes resolution always succeeds. In the source, a path with no route makes `resolve` raise `Resolver404` at `middleware.py:78-79` and `:111-112`, and `process_response` then stops before touching the registry. The model's `ProcessResponse` always emits, under "UNKNOWN" when there is no resolver match.
- The values of the latency and CPU-time samples are not modelled, only the number of samples. They are float clock readings.
- `default_timer` and `time.clock` are not modelled. The stamp on the request is a boolean. The model follows a Python in which `time.clock` exists (3.7 or earlier). On 3.8 and later `process_view` raises at middleware.py:75, after stamping the request and before touching the gauges, and `process_response` raises at middleware.py:278, after the inflight decrements and the counters, so no histogram sample is recorded and the inflight gauges drift downwards.
- Concurrency is left out: the read-modify-write of `update_gauge` is modelled sequentially.
- `TaggedRegistry`, `delta_counter` and `wavefront_histogram` are not part of this model. The registry is a table.
  - A delta counter is its own kind of metric, where the library marks it with a name prefix.
  - Resetting delta counters when the reporter flushes is not modelled.
- The middleware imports `ApplicationTags` from `wavefront_sdk.common`, which is not part of this model. The local `application_tags.py` record stands in for it.
- The values of `constants.py` are not part of this model. The proofs use only `Valid()`.
- Instrumentation.RollupCounts: assumes the two metric-name prefixes contain no `.`. Without that, `<key>.cumulative` could in principle coincide with the request-name error counter.
- Instrumentation.ErrorCounts: assumes the two metric-name prefixes contain no `.`, for the same reason.
- Instrumentation.RollupCounts, Instrumentation.ErrorCounts, Instrumentation.CompletedCounts: assume a non-empty view module name. `get_tags_map` drops a falsy module name, and per-scope maps could then coincide.
- `is not NULL_TAG_VAL` is modelled as "the null tag value was the one picked by `or`". A configured shard or cluster whose text equals the null tag value therefore counts as configured. The model does not follow CPython's string interning.
- Any `.` inside the prefixes, entity or method is treated as ordinary text. The model does not split metric names into segments.
