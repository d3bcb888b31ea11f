/**
 * The static helpers of the Django middleware: tag maps, the sanitised entity
 * name of a route, metric names and the error-status test.
 */
module Naming {
  import opened Wrappers
  import opened PyStrings
  import opened SdkConstants

  type TagMap = map<string, string>

  const ClusterKey := "cluster"
  const ServiceKey := "service"
  const ShardKey := "shard"
  const ModuleKey := "django.resource.module"
  const FuncKey := "django.resource.func"
  const SourceKey := "source"

  /** Django's match of the request path against the URL configuration. */
  datatype ResolverMatch = ResolverMatch(urlName: Option<string>, viewName: string)

  /** A Django response, of which the model keeps the status code. */
  datatype Response = Response(statusCode: int)

  /** The six tag keys are pairwise different. */
  lemma TagKeysDistinct()
    ensures ClusterKey != ServiceKey && ClusterKey != ShardKey && ClusterKey != ModuleKey
    ensures ClusterKey != FuncKey && ClusterKey != SourceKey
    ensures ServiceKey != ShardKey && ServiceKey != ModuleKey && ServiceKey != FuncKey && ServiceKey != SourceKey
    ensures ShardKey != ModuleKey && ShardKey != FuncKey && ShardKey != SourceKey
    ensures ModuleKey != FuncKey && ModuleKey != SourceKey && FuncKey != SourceKey
  {
    assert ClusterKey[0] == 'c' && ServiceKey[0] == 's' && ShardKey[1] == 'h' && SourceKey[1] == 'o';
    assert |ClusterKey| == 7 && |ServiceKey| == 7 && |ShardKey| == 5 && |SourceKey| == 6;
    assert |ModuleKey| == 22 && |FuncKey| == 20 && ModuleKey[0] == 'd' && FuncKey[0] == 'd';
  }

  /**
   * `get_tags_map`: one key per truthy argument, mapped to that argument,
   * and no other key.
   */
  function TagsMap(cluster: Option<string> := None, service: Option<string> := None,
                   shard: Option<string> := None, moduleName: Option<string> := None,
                   funcName: Option<string> := None, source: Option<string> := None): (m: TagMap)
    ensures ClusterKey in m <==> Truthy(cluster)
    ensures ServiceKey in m <==> Truthy(service)
    ensures ShardKey in m <==> Truthy(shard)
    ensures ModuleKey in m <==> Truthy(moduleName)
    ensures FuncKey in m <==> Truthy(funcName)
    ensures SourceKey in m <==> Truthy(source)
    ensures ClusterKey in m ==> m[ClusterKey] == cluster.value
    ensures ServiceKey in m ==> m[ServiceKey] == service.value
    ensures ShardKey in m ==> m[ShardKey] == shard.value
    ensures ModuleKey in m ==> m[ModuleKey] == moduleName.value
    ensures FuncKey in m ==> m[FuncKey] == funcName.value
    ensures SourceKey in m ==> m[SourceKey] == source.value
    ensures m.Keys <= {ClusterKey, ServiceKey, ShardKey, ModuleKey, FuncKey, SourceKey}
  {
    TagKeysDistinct();
    Put(Put(Put(Put(Put(Put(map[], ClusterKey, cluster), ServiceKey, service), ShardKey, shard),
        ModuleKey, moduleName), FuncKey, funcName), SourceKey, source)
  }

  /** `if value: tags_map[key] = value`. */
  function Put(m: TagMap, key: string, value: Option<string>): TagMap {
    if Truthy(value) then m[key := value.value] else m
  }

  /** `get_tags_map` as the source writes it: the dictionary is filled one key at a time. */
  method GetTagsMap(cluster: Option<string> := None, service: Option<string> := None,
                    shard: Option<string> := None, moduleName: Option<string> := None,
                    funcName: Option<string> := None, source: Option<string> := None) returns (m: TagMap)
    ensures m == TagsMap(cluster, service, shard, moduleName, funcName, source)
  {
    m := map[];
    if Truthy(cluster) { m := m[ClusterKey := cluster.value]; }
    assert m == Put(map[], ClusterKey, cluster);
    ghost var m1 := m;
    if Truthy(service) { m := m[ServiceKey := service.value]; }
    assert m == Put(m1, ServiceKey, service);
    ghost var m2 := m;
    if Truthy(shard) { m := m[ShardKey := shard.value]; }
    assert m == Put(m2, ShardKey, shard);
    ghost var m3 := m;
    if Truthy(moduleName) { m := m[ModuleKey := moduleName.value]; }
    assert m == Put(m3, ModuleKey, moduleName);
    ghost var m4 := m;
    if Truthy(funcName) { m := m[FuncKey := funcName.value]; }
    assert m == Put(m4, FuncKey, funcName);
    ghost var m5 := m;
    if Truthy(source) { m := m[SourceKey := source.value]; }
    assert m == Put(m5, SourceKey, source);
  }

  /** Characters a metric name may not contain. */
  predicate Forbidden(ch: char) {
    ch == '-' || ch == '/' || ch == '{' || ch == '}'
  }

  /** No character of `s` is forbidden. */
  predicate Clean(s: string) {
    forall i :: 0 <= i < |s| ==> !Forbidden(s[i])
  }

  /** What sanitising a name promises: no forbidden character and no `.` at either end. */
  predicate IsSanitized(s: string) {
    && Clean(s)
    && (s != [] ==> s[0] != '.' && s[|s| - 1] != '.')
  }

  /** What the replacement chain makes of one character. */
  function Replaced(ch: char): char {
    match ch
    case '-' => '_'
    case '/' => '.'
    case '{' => '_'
    case '}' => '_'
    case _ => ch
  }

  /**
   * The four `replace` calls, in the source's order: `-`, `{`, `}` become
   * `_`, `/` becomes `.`, character by character.
   */
  function ReplacePunctuation(name: string): (r: string)
    ensures |r| == |name|
    ensures forall i :: 0 <= i < |name| ==> r[i] == Replaced(name[i])
  {
    ReplaceChar(ReplaceChar(ReplaceChar(ReplaceChar(name, '-', '_'), '/', '.'), '{', '_'), '}', '_')
  }

  /** After the replacements no forbidden character is left. */
  lemma ReplacedClean(name: string)
    ensures Clean(ReplacePunctuation(name))
  {
    var r := ReplacePunctuation(name);
    forall i | 0 <= i < |r| ensures !Forbidden(r[i]) {
      assert r[i] == Replaced(name[i]);
    }
  }

  lemma CleanSlice(s: string, lo: int, hi: int)
    requires Clean(s) && 0 <= lo <= hi <= |s|
    ensures Clean(s[lo..hi])
  {
    forall i | 0 <= i < hi - lo ensures !Forbidden(s[lo..hi][i]) {
      assert s[lo..hi][i] == s[lo + i];
    }
  }

  /** `name.replace(...)....lstrip('.').rstrip('.')`. */
  function Sanitize(name: string): (r: string)
    ensures IsSanitized(r)
  {
    SanitizeClean(name);
    RStrip(LStrip(ReplacePunctuation(name), '.'), '.')
  }

  lemma SanitizeClean(name: string)
    ensures Clean(RStrip(LStrip(ReplacePunctuation(name), '.'), '.'))
  {
    var replaced := ReplacePunctuation(name);
    ReplacedClean(name);
    var stripped := LStrip(replaced, '.');
    CleanSlice(replaced, |replaced| - |stripped|, |replaced|);
    var r := RStrip(stripped, '.');
    CleanSlice(stripped, 0, |r|);
  }

  /** A name with no forbidden character and no `.` at either end is left as it is. */
  lemma SanitizeFixesSanitized(s: string)
    requires IsSanitized(s)
    ensures Sanitize(s) == s
  {
    forall ch | Forbidden(ch) ensures ch !in s { }
    NoOccurrenceReplaced(s, '-', '_');
    NoOccurrenceReplaced(s, '/', '.');
    NoOccurrenceReplaced(s, '{', '_');
    NoOccurrenceReplaced(s, '}', '_');
  }

  lemma NoOccurrenceReplaced(s: string, a: char, b: char)
    requires a !in s
    ensures ReplaceChar(s, a, b) == s
  {
  }

  /** Sanitising is idempotent. */
  lemma SanitizeIdempotent(name: string)
    ensures Sanitize(Sanitize(name)) == Sanitize(name)
  {
    SanitizeFixesSanitized(Sanitize(name));
  }

  /**
   * `get_entity_name`: "UNKNOWN" without a resolver match; otherwise the URL
   * name, or the view name when the URL name is falsy; sanitised either way.
   */
  function GetEntityName(resolverMatch: Option<ResolverMatch>): (r: string)
    ensures IsSanitized(r)
    ensures resolverMatch.None? ==> r == "UNKNOWN"
    ensures resolverMatch.Some? && Truthy(resolverMatch.value.urlName) ==>
              r == Sanitize(resolverMatch.value.urlName.value)
    ensures resolverMatch.Some? && !Truthy(resolverMatch.value.urlName) ==>
              r == Sanitize(resolverMatch.value.viewName)
  {
    match resolverMatch
    case None =>
      assert IsSanitized("UNKNOWN");
      SanitizeFixesSanitized("UNKNOWN");
      Sanitize("UNKNOWN")
    case Some(m) => Sanitize(if Truthy(m.urlName) then m.urlName.value else m.viewName)
  }

  /**
   * `get_metric_name`: prefix, entity and method joined with `.`, the
   * response prefix and the status code when a response is given, the
   * request prefix otherwise.
   */
  function GetMetricName(c: Constants, entityName: string, httpMethod: string,
                         response: Option<Response> := None): (r: string)
    ensures response.Some? ==>
      r == c.responsePrefix + "." + entityName + "." + httpMethod + "." + IntToString(response.value.statusCode)
    ensures response.None? ==> r == c.requestPrefix + "." + entityName + "." + httpMethod
  {
    var metricName := [entityName, httpMethod];
    if response.Some? then
      var status := IntToString(response.value.statusCode);
      JoinThree(c.responsePrefix, entityName, httpMethod);
      JoinAppend(".", [c.responsePrefix] + metricName, status);
      Join(".", [c.responsePrefix] + metricName + [status])
    else
      JoinThree(c.requestPrefix, entityName, httpMethod);
      Join(".", [c.requestPrefix] + metricName)
  }

  lemma JoinThree(a: string, b: string, d: string)
    ensures Join(".", [a] + [b, d]) == a + "." + b + "." + d
  {
    assert ([a] + [b, d])[1..] == [b, d];
    assert [b, d][1..] == [d];
    assert Join(".", [d]) == d;
    assert Join(".", [b, d]) == b + "." + d;
  }

  /** `get_metric_name_without_status`. */
  function GetMetricNameWithoutStatus(c: Constants, entityName: string, httpMethod: string): (r: string)
    ensures r == GetMetricName(c, entityName, httpMethod)
  {
    JoinThree(c.requestPrefix, entityName, httpMethod);
    Join(".", [c.requestPrefix] + [entityName, httpMethod])
  }

  /** Two responses on the same route and method get the same metric name only when their status codes agree. */
  lemma ResponseNameDeterminesStatus(c: Constants, entityName: string, httpMethod: string, r1: Response, r2: Response)
    requires GetMetricName(c, entityName, httpMethod, Some(r1)) == GetMetricName(c, entityName, httpMethod, Some(r2))
    ensures r1.statusCode == r2.statusCode
  {
    var p := c.responsePrefix + "." + entityName + "." + httpMethod + ".";
    var s1, s2 := IntToString(r1.statusCode), IntToString(r2.statusCode);
    assert (p + s1)[|p|..] == s1 && (p + s2)[|p|..] == s2;
    IntToStringInjective(r1.statusCode, r2.statusCode);
  }

  /** `is_error_status_code`: the status is in the 4xx or 5xx class. */
  function IsErrorStatusCode(response: Response): (r: bool)
    ensures r <==> response.statusCode / 100 == 4 || response.statusCode / 100 == 5
  {
    400 <= response.statusCode <= 599
  }
}
