/** `ConfigRequest.Builder`: an accumulator whose setters check one field each
    and fail fast, and whose `build()` makes the one cross-field check. */
module ConfigBuilder {
  import opened Wrappers
  import opened JavaInt
  import opened AwareConfig

  /** The builder's four accumulated fields. Java's builder is mutable and
      returns itself; here each setter returns the next builder value, and a
      setter that throws returns only its error, leaving the builder it was
      given as it was, as the Java object is after a throw. */
  datatype Builder = Builder(
    support5gBand: bool,
    masterPreference: int32,
    clusterLow: int32,
    clusterHigh: int32)

  /** A fresh builder: the defaults of the field initialisers. */
  const NEW_BUILDER: Builder := Builder(false, 0, CLUSTER_ID_MIN, CLUSTER_ID_MAX)

  /** The builder's invariant: each stored field passes its own check. The
      order of the two cluster ends is not part of it. */
  predicate FieldsValid(b: Builder) {
    && ValidMasterPreference(b.masterPreference)
    && ValidClusterId(b.clusterLow)
    && ValidClusterId(b.clusterHigh)
  }

  lemma NewBuilderFieldsValid()
    ensures FieldsValid(NEW_BUILDER)
  {
  }

  /** `setSupport5gBand`: always succeeds and changes only the flag. */
  function SetSupport5gBand(b: Builder, support5gBand: bool): (r: Builder)
    ensures r.support5gBand == support5gBand
    ensures r.masterPreference == b.masterPreference
    ensures r.clusterLow == b.clusterLow && r.clusterHigh == b.clusterHigh
    ensures FieldsValid(b) ==> FieldsValid(r)
  {
    b.(support5gBand := support5gBand)
  }

  /** `setMasterPreference`: accepts exactly the documented range and
      changes only the preference. */
  function SetMasterPreference(b: Builder, p: int32): (r: Result<Builder, ConfigError>)
    ensures r.Success? <==> ValidMasterPreference(p)
    ensures r.Success? ==>
      && r.value.masterPreference == p
      && r.value.support5gBand == b.support5gBand
      && r.value.clusterLow == b.clusterLow && r.value.clusterHigh == b.clusterHigh
    ensures r == Failure(NegativeMasterPreference) <==> p < 0
    ensures r == Failure(InvalidMasterPreference) <==> 0 <= p && !ValidMasterPreference(p)
    ensures FieldsValid(b) && r.Success? ==> FieldsValid(r.value)
  {
    match CheckMasterPreference(p)
    case Fail(e) => Failure(e)
    case Pass => Success(b.(masterPreference := p))
  }

  /** `setClusterLow`: accepts any cluster ID, whatever the high end holds,
      and changes only the low end. */
  function SetClusterLow(b: Builder, v: int32): (r: Result<Builder, ConfigError>)
    ensures r.Success? <==> ValidClusterId(v)
    ensures r.Success? ==>
      && r.value.clusterLow == v
      && r.value.support5gBand == b.support5gBand
      && r.value.masterPreference == b.masterPreference
      && r.value.clusterHigh == b.clusterHigh
    ensures r == Failure(NegativeClusterId(Low)) <==> v < 0
    ensures r == Failure(ClusterIdTooLarge(Low)) <==> v > 0xFFFF
    ensures FieldsValid(b) && r.Success? ==> FieldsValid(r.value)
  {
    match CheckClusterId(v, Low)
    case Fail(e) => Failure(e)
    case Pass => Success(b.(clusterLow := v))
  }

  /** `setClusterHigh`: accepts any cluster ID, whatever the low end holds,
      and changes only the high end. */
  function SetClusterHigh(b: Builder, v: int32): (r: Result<Builder, ConfigError>)
    ensures r.Success? <==> ValidClusterId(v)
    ensures r.Success? ==>
      && r.value.clusterHigh == v
      && r.value.support5gBand == b.support5gBand
      && r.value.masterPreference == b.masterPreference
      && r.value.clusterLow == b.clusterLow
    ensures r == Failure(NegativeClusterId(High)) <==> v < 0
    ensures r == Failure(ClusterIdTooLarge(High)) <==> v > 0xFFFF
    ensures FieldsValid(b) && r.Success? ==> FieldsValid(r.value)
  {
    match CheckClusterId(v, High)
    case Fail(e) => Failure(e)
    case Pass => Success(b.(clusterHigh := v))
  }

  /** `build()`: succeeds exactly when the low end does not exceed the high
      end, and then carries the builder's four fields unchanged. From a
      builder that keeps its invariant, the result passes `validate()`. */
  function Build(b: Builder): (r: Result<ConfigRequest, ConfigError>)
    ensures r.Success? <==> b.clusterLow <= b.clusterHigh
    ensures r.Failure? ==> r.error == ClusterLowAboveHigh
    ensures r.Success? ==>
      && r.value.support5gBand == b.support5gBand
      && r.value.masterPreference == b.masterPreference
      && r.value.clusterLow == b.clusterLow
      && r.value.clusterHigh == b.clusterHigh
    ensures FieldsValid(b) && r.Success? ==> Validate(r.value) == Pass
  {
    match CheckClusterOrder(b.clusterLow, b.clusterHigh)
    case Fail(e) => Failure(e)
    case Pass => Success(ConfigRequest(b.support5gBand, b.masterPreference, b.clusterLow, b.clusterHigh))
  }

  /** One setter call with its argument. */
  datatype SetterCall =
    | Support5gBand(support5gBand: bool)
    | MasterPreference(p: int32)
    | ClusterLow(low: int32)
    | ClusterHigh(high: int32)

  function Apply(b: Builder, call: SetterCall): Result<Builder, ConfigError> {
    match call
    case Support5gBand(flag) => Success(SetSupport5gBand(b, flag))
    case MasterPreference(p) => SetMasterPreference(b, p)
    case ClusterLow(v) => SetClusterLow(b, v)
    case ClusterHigh(v) => SetClusterHigh(b, v)
  }

  /** Where a fluent chain leaves the builder, and whether a setter threw. */
  datatype ChainResult = ChainResult(builder: Builder, outcome: Outcome<ConfigError>)

  /** A fluent chain `b.setX(..).setY(..)...`. Each setter changes the one
      builder object and returns it, so when a setter throws, the chain stops
      with its error and the builder keeps every setting made before it. The
      builder invariant survives any chain, including one that throws, and a
      setter never raises the ordering error. */
  function Chain(b: Builder, calls: seq<SetterCall>): (r: ChainResult)
    ensures FieldsValid(b) ==> FieldsValid(r.builder)
    ensures r.outcome.Fail? ==> r.outcome.error != ClusterLowAboveHigh
    decreases |calls|
  {
    if |calls| == 0 then ChainResult(b, Pass)
    else
      match Apply(b, calls[0])
      case Failure(e) => ChainResult(b, Fail(e))
      case Success(next) => Chain(next, calls[1..])
  }

  /** Running two chains one after the other is the same as running their
      concatenation: the second chain starts from the builder the first
      reached, unless the first threw, in which case nothing after it runs. */
  lemma {:induction false} ChainAppend(b: Builder, xs: seq<SetterCall>, ys: seq<SetterCall>)
    ensures Chain(b, xs + ys) ==
      if Chain(b, xs).outcome.Pass? then Chain(Chain(b, xs).builder, ys) else Chain(b, xs)
    decreases |xs|
  {
    if |xs| == 0 {
      assert xs + ys == ys;
    } else {
      assert (xs + ys)[1..] == xs[1..] + ys;
      match Apply(b, xs[0])
      case Failure(e) =>
      case Success(next) => ChainAppend(next, xs[1..], ys);
    }
  }

  /** A chain whose first `i` calls pass and whose call `i` throws `e` ends
      with error `e` and the builder the first `i` calls left, whatever calls
      follow. */
  lemma ChainStopsAtFirstThrow(b: Builder, calls: seq<SetterCall>, i: nat, e: ConfigError)
    requires i < |calls|
    requires Chain(b, calls[..i]).outcome == Pass
    requires Apply(Chain(b, calls[..i]).builder, calls[i]) == Failure(e)
    ensures Chain(b, calls) == ChainResult(Chain(b, calls[..i]).builder, Fail(e))
  {
    assert calls == calls[..i] + calls[i..];
    ChainAppend(b, calls[..i], calls[i..]);
    assert calls[i..][0] == calls[i];
  }

  /** A chain of one call is that setter alone: on success the chain goes on
      from the builder it returned, on a throw the builder is left as it was. */
  lemma ChainOneCall(b: Builder, call: SetterCall)
    ensures Chain(b, [call]) ==
      if Apply(b, call).Success? then ChainResult(Apply(b, call).value, Pass)
      else ChainResult(b, Fail(Apply(b, call).error))
  {
  }

  /** The builder field each setter writes. */
  datatype Field = Support5gBandField | MasterPreferenceField | ClusterLowField | ClusterHighField

  function FieldOf(call: SetterCall): Field {
    match call
    case Support5gBand(_) => Support5gBandField
    case MasterPreference(_) => MasterPreferenceField
    case ClusterLow(_) => ClusterLowField
    case ClusterHigh(_) => ClusterHighField
  }

  /** The argument a setter call passes, with the flag as 1 or 0. */
  function ValueOf(call: SetterCall): int {
    match call
    case Support5gBand(flag) => FlagToInt(flag)
    case MasterPreference(p) => p
    case ClusterLow(v) => v
    case ClusterHigh(v) => v
  }

  /** The value a builder holds in one field, with the flag as 1 or 0. */
  function Read(b: Builder, f: Field): int {
    match f
    case Support5gBandField => FlagToInt(b.support5gBand)
    case MasterPreferenceField => b.masterPreference
    case ClusterLowField => b.clusterLow
    case ClusterHighField => b.clusterHigh
  }

  /** A setter that passes stores its argument in its own field and leaves
      the other three as they were. */
  lemma ApplyWritesOnlyItsField(b: Builder, call: SetterCall, f: Field)
    requires Apply(b, call).Success?
    ensures Read(Apply(b, call).value, f) == if f == FieldOf(call) then ValueOf(call) else Read(b, f)
  {
  }

  /** A chain that passes leaves untouched every field none of its calls writes. */
  lemma {:induction false} ChainKeepsUnwrittenField(b: Builder, calls: seq<SetterCall>, f: Field)
    requires Chain(b, calls).outcome == Pass
    requires forall j :: 0 <= j < |calls| ==> FieldOf(calls[j]) != f
    ensures Read(Chain(b, calls).builder, f) == Read(b, f)
    decreases |calls|
  {
    if |calls| > 0 {
      var next := Apply(b, calls[0]).value;
      ApplyWritesOnlyItsField(b, calls[0], f);
      ChainKeepsUnwrittenField(next, calls[1..], f);
    }
  }

  /** In a chain that passes, the last write to a field wins: the builder ends
      holding the argument of the last call that writes that field, because
      each setter changes the one builder the following calls see. */
  lemma {:induction false} ChainLastWriteWins(b: Builder, calls: seq<SetterCall>, i: nat)
    requires Chain(b, calls).outcome == Pass
    requires i < |calls|
    requires forall j :: i < j < |calls| ==> FieldOf(calls[j]) != FieldOf(calls[i])
    ensures Read(Chain(b, calls).builder, FieldOf(calls[i])) == ValueOf(calls[i])
    decreases i
  {
    var next := Apply(b, calls[0]).value;
    if i == 0 {
      ApplyWritesOnlyItsField(b, calls[0], FieldOf(calls[0]));
      ChainKeepsUnwrittenField(next, calls[1..], FieldOf(calls[0]));
    } else {
      ChainLastWriteWins(next, calls[1..], i - 1);
    }
  }

  /** Whatever setters are called on a fresh builder, whether or not one of
      them throws, a request that `build()` then returns passes `validate()`. */
  lemma BuiltRequestIsValid(calls: seq<SetterCall>)
    ensures Build(Chain(NEW_BUILDER, calls).builder).Success? ==>
      Validate(Build(Chain(NEW_BUILDER, calls).builder).value) == Pass
  {
  }

  /** The setter chain that asks for exactly the fields of `c`. */
  function CallsFor(c: ConfigRequest): seq<SetterCall> {
    [Support5gBand(c.support5gBand), MasterPreference(c.masterPreference),
     ClusterLow(c.clusterLow), ClusterHigh(c.clusterHigh)]
  }

  /** Conversely, every valid request can be built: setting its four fields
      on a fresh builder and building gives back exactly that request. So the
      requests the builder produces are exactly the valid ones. */
  lemma EveryValidRequestIsBuildable(c: ConfigRequest)
    requires Valid(c)
    ensures Chain(NEW_BUILDER, CallsFor(c)).outcome == Pass
    ensures Build(Chain(NEW_BUILDER, CallsFor(c)).builder) == Success(c)
  {
    var calls := CallsFor(c);
    var b1 := SetSupport5gBand(NEW_BUILDER, c.support5gBand);
    var b2 := SetMasterPreference(b1, c.masterPreference).value;
    var b3 := SetClusterLow(b2, c.clusterLow).value;
    var b4 := SetClusterHigh(b3, c.clusterHigh).value;
    var done := ChainResult(b4, Pass);
    assert Chain(b4, calls[4..]) == done;
    assert calls[3..][1..] == calls[4..];
    assert Chain(b3, calls[3..]) == done;
    assert calls[2..][1..] == calls[3..];
    assert Chain(b2, calls[2..]) == done;
    assert calls[1..][1..] == calls[2..];
    assert Chain(b1, calls[1..]) == done;
  }

  /** A fresh builder builds the default request, which is not non-default. */
  lemma DefaultBuildIsDefault()
    ensures Build(NEW_BUILDER) == Success(DEFAULT)
    ensures !IsNonDefault(DEFAULT)
  {
  }
}
