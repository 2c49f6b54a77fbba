/** The immutable Wi-Fi Aware configuration request: its four fields, the
    checks that make it valid, and its value semantics (equality, hash code,
    the "non-default" test). */
module AwareConfig {
  import opened Wrappers
  import opened JavaInt

  /** Lower end of the cluster ID range. */
  const CLUSTER_ID_MIN: int32 := 0
  /** Upper end of the cluster ID range. */
  const CLUSTER_ID_MAX: int32 := 0xFFFF

  /** The request: 5 GHz band support, master preference, and the inclusive
      range the cluster ID is picked from. Nothing stops an invalid value from
      existing (decoding a parcel never validates); `Valid` says which are. */
  datatype ConfigRequest = ConfigRequest(
    support5gBand: bool,
    masterPreference: int32,
    clusterLow: int32,
    clusterHigh: int32)

  /** Which end of the cluster ID range a cluster check was about. */
  datatype Bound = Low | High

  /** One error per distinct check `validate()` makes; each stands for an
      IllegalArgumentException with its own message. */
  datatype ConfigError =
    | NegativeMasterPreference
    | InvalidMasterPreference       // reserved (1, 255) or above 255
    | NegativeClusterId(bound: Bound)
    | ClusterIdTooLarge(bound: Bound)
    | ClusterLowAboveHigh

  /** The documented master preference range: 0 to 255, with the reserved
      values 1 and 255 excluded. */
  predicate ValidMasterPreference(p: int) {
    0 <= p <= 255 && p != 1 && p != 255
  }

  predicate ValidClusterId(v: int) {
    CLUSTER_ID_MIN <= v <= CLUSTER_ID_MAX
  }

  /** Every rule a ConfigRequest must satisfy. */
  predicate Valid(c: ConfigRequest) {
    && ValidMasterPreference(c.masterPreference)
    && ValidClusterId(c.clusterLow)
    && ValidClusterId(c.clusterHigh)
    && c.clusterLow <= c.clusterHigh
  }

  /** The master preference check shared by the setter and `validate()`:
      negative values get their own error, every other out-of-range or
      reserved value gets the second one. */
  function CheckMasterPreference(p: int32): (r: Outcome<ConfigError>)
    ensures r.Pass? <==> ValidMasterPreference(p)
    ensures r == Fail(NegativeMasterPreference) <==> p < 0
    ensures r == Fail(InvalidMasterPreference) <==> 0 <= p && !ValidMasterPreference(p)
  {
    if p < 0 then Fail(NegativeMasterPreference)
    else if p == 1 || p == 255 || p > 255 then Fail(InvalidMasterPreference)
    else Pass
  }

  /** The range check on one end of the cluster ID range. It does not look at
      the other end. */
  function CheckClusterId(v: int32, bound: Bound): (r: Outcome<ConfigError>)
    ensures r.Pass? <==> ValidClusterId(v)
    ensures r == Fail(NegativeClusterId(bound)) <==> v < 0
    ensures r == Fail(ClusterIdTooLarge(bound)) <==> v > 0xFFFF
  {
    if v < CLUSTER_ID_MIN then Fail(NegativeClusterId(bound))
    else if v > CLUSTER_ID_MAX then Fail(ClusterIdTooLarge(bound))
    else Pass
  }

  /** The one cross-field rule; equal ends are allowed and pin the cluster ID. */
  function CheckClusterOrder(low: int32, high: int32): (r: Outcome<ConfigError>)
    ensures r.Pass? <==> low <= high
    ensures r.Fail? ==> r.error == ClusterLowAboveHigh
  {
    if low > high then Fail(ClusterLowAboveHigh) else Pass
  }

  /** `validate()`: re-checks every rule of an existing request, stopping at
      the first one broken. */
  function Validate(c: ConfigRequest): (r: Outcome<ConfigError>)
    ensures r.Pass? <==> Valid(c)
  {
    var preference := CheckMasterPreference(c.masterPreference);
    if preference.Fail? then preference else
    var low := CheckClusterId(c.clusterLow, Low);
    if low.Fail? then low else
    var high := CheckClusterId(c.clusterHigh, High);
    if high.Fail? then high else
    CheckClusterOrder(c.clusterLow, c.clusterHigh)
  }

  /** Position of each error in the order `validate()` makes its checks. */
  function Rank(e: ConfigError): (k: nat)
    ensures 1 <= k <= 7
  {
    match e
    case NegativeMasterPreference => 1
    case InvalidMasterPreference => 2
    case NegativeClusterId(Low) => 3
    case ClusterIdTooLarge(Low) => 4
    case NegativeClusterId(High) => 5
    case ClusterIdTooLarge(High) => 6
    case ClusterLowAboveHigh => 7
  }

  /** Whether `c` breaks the rule checked at position `k`, judged on its own. */
  predicate Breaks(c: ConfigRequest, k: nat) {
    match k
    case 1 => c.masterPreference < 0
    case 2 => c.masterPreference == 1 || c.masterPreference >= 255
    case 3 => c.clusterLow < 0
    case 4 => c.clusterLow > 0xFFFF
    case 5 => c.clusterHigh < 0
    case 6 => c.clusterHigh > 0xFFFF
    case 7 => c.clusterLow > c.clusterHigh
    case _ => false
  }

  /** `validate()` reports exactly the first broken rule in its fixed order,
      and passes exactly when no rule is broken. */
  lemma ValidateReportsFirstBrokenRule(c: ConfigRequest)
    ensures Validate(c).Fail? ==>
      && Breaks(c, Rank(Validate(c).error))
      && forall k :: 1 <= k < Rank(Validate(c).error) ==> !Breaks(c, k)
    ensures Validate(c).Pass? <==> forall k :: 1 <= k <= 7 ==> !Breaks(c, k)
  {
  }

  /** The documented default request: no 5 GHz band, preference 0, the whole
      cluster ID range. */
  const DEFAULT: ConfigRequest := ConfigRequest(false, 0, CLUSTER_ID_MIN, CLUSTER_ID_MAX)

  /** `isNonDefault()`: whether any setting differs from its default. */
  function IsNonDefault(c: ConfigRequest): (r: bool)
    ensures r <==> c != DEFAULT
  {
    c.support5gBand || c.masterPreference != 0 || c.clusterLow != CLUSTER_ID_MIN
      || c.clusterHigh != CLUSTER_ID_MAX
  }

  /** `equals`: field-by-field comparison. */
  function Equals(a: ConfigRequest, b: ConfigRequest): (r: bool)
    ensures r <==> a == b
  {
    a.support5gBand == b.support5gBand && a.masterPreference == b.masterPreference
      && a.clusterLow == b.clusterLow && a.clusterHigh == b.clusterHigh
  }

  /** `equals` is an equivalence relation. */
  lemma EqualsIsEquivalence()
    ensures forall a :: Equals(a, a)
    ensures forall a, b :: Equals(a, b) <==> Equals(b, a)
    ensures forall a, b, c :: Equals(a, b) && Equals(b, c) ==> Equals(a, c)
  {
  }

  /** The int a boolean field contributes to the hash code and to a parcel. */
  function FlagToInt(b: bool): (r: int32)
    ensures r == 0 || r == 1
    ensures r != 0 <==> b
  {
    if b then 1 else 0
  }

  /** The ints `hashCode()` folds in, in order: flag, preference, low, high. */
  function HashFields(c: ConfigRequest): (r: seq<int32>)
    ensures |r| == 4
    ensures r[0] == 0 || r[0] == 1
    ensures r[0] == 1 <==> c.support5gBand
    ensures r[1..] == [c.masterPreference, c.clusterLow, c.clusterHigh]
  {
    [FlagToInt(c.support5gBand), c.masterPreference, c.clusterLow, c.clusterHigh]
  }

  /** One `result = 31 * result + x` step per element, each operation in
      wrapping 32-bit arithmetic. */
  function HashFold(h: int32, xs: seq<int32>): int32
    decreases |xs|
  {
    if |xs| == 0 then h else HashFold(Add(Mul(31, h), xs[0]), xs[1..])
  }

  /** The same fold in exact integer arithmetic: `h * 31^|xs|` plus the
      elements read as base-31 digits. */
  function Polynomial(h: int, xs: seq<int32>): int
    decreases |xs|
  {
    if |xs| == 0 then h else Polynomial(31 * h + xs[0], xs[1..])
  }


  /** Folding with wrap-around after every operation gives the exact fold
      reduced once to a 32-bit value. */
  lemma {:induction false} HashFoldIsWrappedPolynomial(h: int, xs: seq<int32>)
    ensures HashFold(Wrap(h), xs) == Wrap(Polynomial(h, xs))
    decreases |xs|
  {
    if |xs| > 0 {
      WrapMulAdd31(h, xs[0]);
      HashFoldIsWrappedPolynomial(31 * h + xs[0], xs[1..]);
    }
  }

  /** `hashCode()`: the fold started from 17, which equals the exact fold
      of the four field ints wrapped once. */
  function HashCode(c: ConfigRequest): (r: int32)
    ensures r == Wrap(Polynomial(17, HashFields(c)))
  {
    HashFoldIsWrappedPolynomial(17, HashFields(c));
    HashFold(17, HashFields(c))
  }

  /** The hash code in closed form: `17*31^4 + flag*31^3 + pref*31^2 +
      low*31 + high`, reduced modulo 2^32 into the signed int range. */
  lemma HashCodeIsWrappedPolynomial(c: ConfigRequest)
    ensures HashCode(c) == Wrap(17 * 923521 + FlagToInt(c.support5gBand) as int * 29791
                                + c.masterPreference as int * 961 + c.clusterLow as int * 31
                                + c.clusterHigh as int)
  {
    var xs := HashFields(c);
    HashFoldIsWrappedPolynomial(17, xs);
    assert Polynomial(17, xs) == 17 * 923521 + xs[0] as int * 29791 + xs[1] as int * 961 + xs[2] as int * 31 + xs[3] as int by {
      var a := 31 * 17 + xs[0] as int;
      var b := 31 * a + xs[1] as int;
      var d := 31 * b + xs[2] as int;
      assert xs[1..][1..] == xs[2..] && xs[2..][1..] == xs[3..] && xs[3..][1..] == [];
      assert Polynomial(d, xs[3..]) == 31 * d + xs[3] as int;
      assert Polynomial(b, xs[2..]) == Polynomial(d, xs[3..]);
      assert Polynomial(a, xs[1..]) == Polynomial(b, xs[2..]);
    }
  }

  /** Requests that are `equals` have the same hash code. */
  lemma HashCodeConsistentWithEquals(a: ConfigRequest, b: ConfigRequest)
    requires Equals(a, b)
    ensures HashCode(a) == HashCode(b)
  {
  }
}
