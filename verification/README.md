# Wi-Fi Aware ConfigRequest, modelled in Dafny

This project models `android.net.wifi.aware.ConfigRequest`: the immutable
request an application hands to Wi-Fi Aware (Neighbor Awareness Networking)
to configure the cluster it joins or forms. A request carries four fields:
whether 5 GHz band support is wanted, the master preference (how keen the
device is to become cluster master), and the inclusive range `[clusterLow,
clusterHigh]` from which a new cluster ID is picked.

The model follows the Java class:

- `wrappers.dfy` — `Result` and `Outcome`, standing for a thrown
  `IllegalArgumentException` as a returned error.
- `java_int.dfy` (`JavaInt`) — Java's 32-bit `int` as a subset type, and the
  wrap-around of `*` and `+` that `hashCode()` relies on.
- `aware_config.dfy` (`AwareConfig`) — the constants `CLUSTER_ID_MIN = 0` and
  `CLUSTER_ID_MAX = 0xFFFF`, the value datatype, one error per distinct check,
  the per-field and cross-field checks, `validate()`, `isNonDefault()`,
  `equals` and `hashCode()`.
- `config_builder.dfy` (`ConfigBuilder`) — `ConfigRequest.Builder`: its
  defaults, the four setters (each returns the next builder or an error), `build()`,
  and fluent setter chains.
- `config_parcel.dfy` (`ConfigParcel`) — `writeToParcel` and
  `CREATOR.createFromParcel`, with the parcel as a sequence of 32-bit ints.
- `scenarios.dfy` (`Scenarios`) — example builder uses, stated as lemmas.

The builder keeps one invariant: every stored field passes its own check. The
fresh builder satisfies it and every setter preserves it, also in a chain that
throws part way. `build()` adds the one cross-field rule `low <= high`. So
every request the builder returns passes `validate()`, and conversely every
valid request can be built.

Decoding reads exactly four ints and never validates. Any nonzero flag int
decodes as `true`. So an invalid request can exist in memory, and the round
trip holds for invalid requests too. A parcel shorter than four ints is not
modelled.

The Java code gives a low and a high cluster bound the same messages. The
model's errors still record which bound failed (`NegativeClusterId(Low)` /
`(High)`), so that each of the seven checks of `validate()` has its own error.

## Model

| member | source | states |
|---|---|---|
| AwareConfig.CheckMasterPreference | wifi/java/android/net/wifi/aware/ConfigRequest.java:209-217 | passes iff `0 <= p <= 255` and `p` is neither 1 nor 255; a negative `p` gives `NegativeMasterPreference`, and exactly the other rejected values give `InvalidMasterPreference` |
| AwareConfig.CheckClusterId | wifi/java/android/net/wifi/aware/ConfigRequest.java:236-242 | passes iff the value lies in `CLUSTER_ID_MIN..CLUSTER_ID_MAX`; negative values and values above 0xFFFF get their own errors, tagged with the bound checked |
| AwareConfig.CheckClusterOrder | wifi/java/android/net/wifi/aware/ConfigRequest.java:278-281 | passes iff `low <= high` (equality allowed), otherwise `ClusterLowAboveHigh` |
| AwareConfig.Validate | wifi/java/android/net/wifi/aware/ConfigRequest.java:151-176 | `validate()` passes iff the preference is valid, both cluster ends are in range and `low <= high` |
| AwareConfig.ValidateReportsFirstBrokenRule | wifi/java/android/net/wifi/aware/ConfigRequest.java:152-175 | `validate()` reports exactly the first broken rule in the fixed order: preference negative, preference reserved or above 255, low negative, low above 0xFFFF, high negative, high above 0xFFFF, low above high |
| AwareConfig.IsNonDefault | wifi/java/android/net/wifi/aware/ConfigRequest.java:130-133 | `isNonDefault()` is false exactly for the default request (no 5 GHz, preference 0, low `CLUSTER_ID_MIN`, high `CLUSTER_ID_MAX`) |
| AwareConfig.Equals | wifi/java/android/net/wifi/aware/ConfigRequest.java:121-122 | `equals` holds iff all four fields are pairwise equal, that is, iff the values are the same |
| AwareConfig.EqualsIsEquivalence | wifi/java/android/net/wifi/aware/ConfigRequest.java:109-123 | `equals` is reflexive, symmetric and transitive |
| AwareConfig.FlagToInt | wifi/java/android/net/wifi/aware/ConfigRequest.java:139 | the flag contributes 1 when set and 0 when not |
| AwareConfig.HashFields | wifi/java/android/net/wifi/aware/ConfigRequest.java:139-142 | the hash folds in four ints in the fixed order flag (1 exactly when set, else 0), preference, low, high |
| AwareConfig.HashCode | wifi/java/android/net/wifi/aware/ConfigRequest.java:136-145 | `hashCode()`, folded from 17 with 32-bit wrap after every operation, equals the exact base-31 fold of the four field ints reduced once modulo 2^32 |
| AwareConfig.HashFoldIsWrappedPolynomial | wifi/java/android/net/wifi/aware/ConfigRequest.java:137-144 | folding `31 * result + field` with 32-bit wrap after every operation equals the exact fold reduced once modulo 2^32 into the signed int range |
| AwareConfig.HashCodeIsWrappedPolynomial | wifi/java/android/net/wifi/aware/ConfigRequest.java:136-145 | `hashCode()` equals `17*31^4 + flag*31^3 + pref*31^2 + low*31 + high` reduced modulo 2^32 into the signed int range |
| AwareConfig.HashCodeConsistentWithEquals | wifi/java/android/net/wifi/aware/ConfigRequest.java:109-145 | requests that are `equals` have equal hash codes |
| JavaInt.Wrap | wifi/java/android/net/wifi/aware/ConfigRequest.java:137-142 | a Java int result is the signed 32-bit value congruent to the exact result modulo 2^32, and equals it when it fits |
| JavaInt.WrapShift | wifi/java/android/net/wifi/aware/ConfigRequest.java:137-142 | adding a multiple of 2^32 does not change the wrapped Java int |
| JavaInt.WrapMulAdd31 | wifi/java/android/net/wifi/aware/ConfigRequest.java:139-142 | wrapping the running result before `31 * result + field` does not change the wrapped outcome |
| ConfigBuilder.NewBuilderFieldsValid | wifi/java/android/net/wifi/aware/ConfigRequest.java:182-185 | the builder's defaults satisfy every per-field check |
| ConfigBuilder.SetSupport5gBand | wifi/java/android/net/wifi/aware/ConfigRequest.java:195-198 | always succeeds, sets only the flag, keeps the builder invariant |
| ConfigBuilder.SetMasterPreference | wifi/java/android/net/wifi/aware/ConfigRequest.java:209-221 | succeeds iff the preference is in the documented range; on success only the preference changes; a negative value and a reserved or too-large value give different errors; keeps the builder invariant |
| ConfigBuilder.SetClusterLow | wifi/java/android/net/wifi/aware/ConfigRequest.java:236-246 | succeeds iff the value is a valid cluster ID, without looking at the high end; on success only the low end changes; keeps the builder invariant |
| ConfigBuilder.SetClusterHigh | wifi/java/android/net/wifi/aware/ConfigRequest.java:261-271 | succeeds iff the value is a valid cluster ID, without looking at the low end; on success only the high end changes; keeps the builder invariant |
| ConfigBuilder.Build | wifi/java/android/net/wifi/aware/ConfigRequest.java:277-284 | succeeds iff `low <= high`, otherwise fails with `ClusterLowAboveHigh`; the result carries exactly the builder's four fields and, from a builder keeping its invariant, passes `validate()` |
| ConfigBuilder.Chain | wifi/java/android/net/wifi/aware/ConfigRequest.java:195-271 | a fluent chain of setter calls keeps the builder invariant, also when a setter throws part way, and no setter raises the ordering error |
| ConfigBuilder.ChainAppend | wifi/java/android/net/wifi/aware/ConfigRequest.java:192-197 | running one chain after another equals running their concatenation: the second starts from the builder the first reached, and does not run at all if the first threw |
| ConfigBuilder.ChainStopsAtFirstThrow | wifi/java/android/net/wifi/aware/ConfigRequest.java:209-221 | when the first `i` calls pass and call `i` throws, the whole chain ends with that error and the builder holding every earlier setting, whatever calls follow |
| ConfigBuilder.ChainOneCall | wifi/java/android/net/wifi/aware/ConfigRequest.java:195-271 | a one-call chain is that setter alone: on success it holds the setter's builder, on a throw the builder it was given and the error |
| ConfigBuilder.ApplyWritesOnlyItsField | wifi/java/android/net/wifi/aware/ConfigRequest.java:195-271 | a setter that passes stores its argument in its own field and leaves the other three unchanged |
| ConfigBuilder.ChainKeepsUnwrittenField | wifi/java/android/net/wifi/aware/ConfigRequest.java:195-271 | a chain that passes leaves unchanged every field that none of its calls writes |
| ConfigBuilder.ChainLastWriteWins | wifi/java/android/net/wifi/aware/ConfigRequest.java:195-271 | in a chain that passes, each field ends holding the argument of the last call that writes it, because every setter changes the builder that later calls see |
| ConfigBuilder.BuiltRequestIsValid | wifi/java/android/net/wifi/aware/ConfigRequest.java:277-284 | whatever setters are called on a fresh builder, even if one throws, a request that `build()` then returns passes `validate()` |
| ConfigBuilder.EveryValidRequestIsBuildable | wifi/java/android/net/wifi/aware/ConfigRequest.java:195-284 | every valid request is produced by setting its four fields on a fresh builder and building |
| ConfigBuilder.DefaultBuildIsDefault | wifi/java/android/net/wifi/aware/ConfigRequest.java:182-185 | a fresh builder builds the default request, and `isNonDefault()` is false for it |
| ConfigParcel.WriteToParcel | wifi/java/android/net/wifi/aware/ConfigRequest.java:86-91 | appends exactly four ints after what the parcel held: the flag (1 exactly when set, else 0), then preference, low and high in that order |
| ConfigParcel.CreateFromParcel | wifi/java/android/net/wifi/aware/ConfigRequest.java:100-106 | consumes exactly four ints; any nonzero flag reads as true; the other three ints become preference, low and high in that order |
| ConfigParcel.ParcelRoundTrip | wifi/java/android/net/wifi/aware/ConfigRequest.java:86-106 | reading back what was written gives the same request, valid or not, and leaves what followed unread |
| ConfigParcel.ReencodeIsIdentityIffCanonicalFlag | wifi/java/android/net/wifi/aware/ConfigRequest.java:100-106 | re-encoding a decoded request reproduces the four ints iff the flag int was 0 or 1 |
| ConfigParcel.DecodingAdmitsInvalidRequests | wifi/java/android/net/wifi/aware/ConfigRequest.java:100-106 | decoding does not validate: the ints 0, 0, 10, 5 decode to a request that `validate()` rejects with `ClusterLowAboveHigh` |
| Scenarios.ReservedPreferenceRejected | wifi/java/android/net/wifi/aware/ConfigRequest.java:214-217 | `setMasterPreference(1)` throws the reserved-value error |
| Scenarios.FailedChainKeepsEarlierSettings | wifi/java/android/net/wifi/aware/ConfigRequest.java:236-246 | after `setClusterLow(100).setMasterPreference(1)` throws, the builder keeps low 100, so a later `setClusterHigh(50).build()` is rejected |
| Scenarios.SecondLowWins | wifi/java/android/net/wifi/aware/ConfigRequest.java:236-246 | `setClusterLow(5).setClusterLow(7)` leaves the low end at 7 |
| Scenarios.InvertedRangeRejectedAtBuild | wifi/java/android/net/wifi/aware/ConfigRequest.java:278-281 | low 100 and high 50 are each accepted by their setters and rejected by `build()` |
| Scenarios.EqualEndsAccepted | wifi/java/android/net/wifi/aware/ConfigRequest.java:277-284 | low and high both 10 build a request pinned to cluster ID 10 |
| Scenarios.FullRequestRoundTrips | wifi/java/android/net/wifi/aware/ConfigRequest.java:86-106 | a request with 5 GHz, preference 254 and the full cluster range builds and survives a parcel round trip |

## Left out

- `toString()` (lines 73-78): diagnostic string formatting that nothing parses.
- `describeContents()` and `CREATOR.newArray`: Android Parcelable plumbing with no logic.
- The `Parcel` class itself: it is foreign to this file. A parcel is modelled as the sequence of ints written to it.
- ConfigParcel.CreateFromParcel: requires at least four ints. The file shows no behaviour for reading past the end of a parcel.
- Reference identity (`this == o`) and the `instanceof` test in `equals`: equality is modelled as structural only. The argument is always a ConfigRequest.
- Builder mutation and `return this` chaining: each setter returns a new builder value, and a chain returns the builder it reached together with the first error. Aliasing of one Java builder object through several references is not modelled.
- The `WifiAwareManager.attach` caller and the cluster negotiation the request drives: these are not part of this model.
