/**
 * The SDK's named constants. Their values live in a module that is not part
 * of this model, so they are carried as an opaque record; every proof relies
 * only on `Valid()`: each value is non-empty and values that play different
 * roles are different.
 */
module SdkConstants {

  datatype Constants = Constants(
    nullTagVal: string,               // NULL_TAG_VAL
    wavefrontProvidedSource: string,  // WAVEFRONT_PROVIDED_SOURCE
    responsePrefix: string,           // RESPONSE_PREFIX
    requestPrefix: string,            // REQUEST_PREFIX
    applicationTagKey: string,        // APPLICATION_TAG_KEY
    serviceTagKey: string,            // SERVICE_TAG_KEY
    clusterTagKey: string,            // CLUSTER_TAG_KEY
    shardTagKey: string)              // SHARD_TAG_KEY
  {
    predicate Valid() {
      && nullTagVal != "" && wavefrontProvidedSource != ""
      && responsePrefix != "" && requestPrefix != ""
      && responsePrefix != requestPrefix
      && applicationTagKey != "" && serviceTagKey != "" && clusterTagKey != "" && shardTagKey != ""
      && applicationTagKey != serviceTagKey && applicationTagKey != clusterTagKey
      && applicationTagKey != shardTagKey && serviceTagKey != clusterTagKey
      && serviceTagKey != shardTagKey && clusterTagKey != shardTagKey
    }

    /** The two metric-name prefixes are single dot-free name segments. */
    predicate DotFreePrefixes() {
      '.' !in responsePrefix && '.' !in requestPrefix
    }
  }
}
