/** Example builder uses, stated as lemmas. */
module Scenarios {
  import opened Wrappers
  import opened AwareConfig
  import opened ConfigBuilder
  import opened ConfigParcel

  /** Reserved preference 1 is rejected by the setter, before `build()`. */
  lemma ReservedPreferenceRejected()
    ensures Chain(NEW_BUILDER, [MasterPreference(1)])
      == ChainResult(NEW_BUILDER, Fail(InvalidMasterPreference))
  {
  }

  /** A chain that throws part way keeps the settings made before the throw:
      after `setClusterLow(100).setMasterPreference(1)` throws, the builder
      holds low 100, so a later `setClusterHigh(50).build()` is rejected. */
  lemma FailedChainKeepsEarlierSettings()
    ensures Chain(NEW_BUILDER, [ClusterLow(100), MasterPreference(1)])
      == ChainResult(NEW_BUILDER.(clusterLow := 100), Fail(InvalidMasterPreference))
    ensures Build(Chain(NEW_BUILDER.(clusterLow := 100), [ClusterHigh(50)]).builder)
      == Failure(ClusterLowAboveHigh)
  {
  }

  /** Setting the low end twice keeps the second value. */
  lemma SecondLowWins()
    ensures Chain(NEW_BUILDER, [ClusterLow(5), ClusterLow(7)])
      == ChainResult(NEW_BUILDER.(clusterLow := 7), Pass)
  {
  }

  /** Low 100 and high 50 are each accepted; `build()` then rejects them. */
  lemma InvertedRangeRejectedAtBuild()
    ensures Chain(NEW_BUILDER, [ClusterLow(100), ClusterHigh(50)]).outcome == Pass
    ensures Build(Chain(NEW_BUILDER, [ClusterLow(100), ClusterHigh(50)]).builder)
      == Failure(ClusterLowAboveHigh)
  {
  }

  /** Equal ends pin the cluster ID. */
  lemma EqualEndsAccepted()
    ensures Chain(NEW_BUILDER, [ClusterLow(10), ClusterHigh(10)]).outcome == Pass
    ensures Build(Chain(NEW_BUILDER, [ClusterLow(10), ClusterHigh(10)]).builder)
      == Success(ConfigRequest(false, 0, 10, 10))
  {
  }

  /** A fully set request builds and survives a parcel round trip. */
  lemma FullRequestRoundTrips()
    ensures Chain(NEW_BUILDER, [Support5gBand(true), MasterPreference(254),
                                ClusterLow(0), ClusterHigh(0xFFFF)]).outcome == Pass
    ensures Build(Chain(NEW_BUILDER, [Support5gBand(true), MasterPreference(254),
                                      ClusterLow(0), ClusterHigh(0xFFFF)]).builder)
      == Success(ConfigRequest(true, 254, 0, 0xFFFF))
    ensures CreateFromParcel(WriteToParcel([], ConfigRequest(true, 254, 0, 0xFFFF))).0
      == ConfigRequest(true, 254, 0, 0xFFFF)
  {
  }
}
