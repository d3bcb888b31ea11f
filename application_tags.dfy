/**
 * The application identity record: application, service, optional cluster,
 * optional shard and optional custom tags, fixed at construction.
 */
module AppTags {
  import opened Wrappers
  import opened PyStrings
  import opened SdkConstants

  datatype Error = AttributeError(message: string)

  const MissingApplication := "Missing \"application\" parameter in ApplicationTags!"
  const MissingService := "Missing \"service\" parameter in ApplicationTags!"

  /** The read-only properties are the fields; `custom_tags` is kept as given. */
  datatype ApplicationTags = ApplicationTags(
    application: string,
    service: string,
    cluster: Option<string>,
    shard: Option<string>,
    customTags: Option<seq<(string, string)>>)
  {
    /** What construction guarantees about every instance. */
    predicate Valid() {
      application != "" && service != ""
    }

    /** `get_as_list`: the four identity tags, absent cluster and shard shown as the null tag value. */
    function GetAsList(c: Constants): (r: seq<(string, string)>)
      ensures |r| == 4
      ensures r[0].0 == c.applicationTagKey && r[1].0 == c.serviceTagKey
      ensures r[2].0 == c.clusterTagKey && r[3].0 == c.shardTagKey
      ensures r[0].1 == application && r[1].1 == service
      ensures r[2].1 == c.nullTagVal <==> !Truthy(cluster) || cluster.value == c.nullTagVal
      ensures r[3].1 == c.nullTagVal <==> !Truthy(shard) || shard.value == c.nullTagVal
      ensures Truthy(cluster) ==> r[2].1 == cluster.value
      ensures Truthy(shard) ==> r[3].1 == shard.value
    {
      [(c.applicationTagKey, application),
       (c.serviceTagKey, service),
       (c.clusterTagKey, if Truthy(cluster) then cluster.value else c.nullTagVal),
       (c.shardTagKey, if Truthy(shard) then shard.value else c.nullTagVal)]
    }
  }

  /**
   * `ApplicationTags(application, service, cluster, shard, custom_tags)`:
   * fails with `AttributeError` on a falsy application (checked first) or a
   * falsy service, and otherwise stores every argument unchanged.
   */
  function New(application: Option<string>, service: Option<string>,
               cluster: Option<string> := None, shard: Option<string> := None,
               customTags: Option<seq<(string, string)>> := None): (r: Result<ApplicationTags, Error>)
    ensures !Truthy(application) ==> r == Failure(AttributeError(MissingApplication))
    ensures Truthy(application) && !Truthy(service) ==> r == Failure(AttributeError(MissingService))
    ensures r.Success? <==> Truthy(application) && Truthy(service)
    ensures r.Success? ==> r.value.Valid()
    ensures r.Success? ==> && Some(r.value.application) == application
                           && Some(r.value.service) == service
                           && r.value.cluster == cluster
                           && r.value.shard == shard
                           && r.value.customTags == customTags
  {
    if !Truthy(application) then Failure(AttributeError(MissingApplication))
    else if !Truthy(service) then Failure(AttributeError(MissingService))
    else Success(ApplicationTags(application.value, service.value, cluster, shard, customTags))
  }

  /**
   * Reading the list back: the null tag value stands for an absent dimension.
   * A reference decoding used to show what `GetAsList` keeps.
   */
  function FromList(c: Constants, tags: seq<(string, string)>): Option<(string, string, Option<string>, Option<string>)>
  {
    if |tags| != 4 || tags[0].0 != c.applicationTagKey || tags[1].0 != c.serviceTagKey
       || tags[2].0 != c.clusterTagKey || tags[3].0 != c.shardTagKey
    then None
    else Some((tags[0].1, tags[1].1,
               if tags[2].1 == c.nullTagVal then None else Some(tags[2].1),
               if tags[3].1 == c.nullTagVal then None else Some(tags[3].1)))
  }

  /** An absent or empty optional dimension, normalised to `None`. */
  function Normalise(o: Option<string>): Option<string> {
    if Truthy(o) then o else None
  }

  /**
   * `get_as_list` loses nothing but the difference between a missing and an
   * empty cluster or shard, provided neither is literally the null tag value.
   */
  lemma AsListRoundTrip(c: Constants, t: ApplicationTags)
    requires t.Valid()
    requires t.cluster != Some(c.nullTagVal) && t.shard != Some(c.nullTagVal)
    ensures FromList(c, t.GetAsList(c)) == Some((t.application, t.service, Normalise(t.cluster), Normalise(t.shard)))
  {
  }
}
