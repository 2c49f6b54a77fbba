/** The Parcelable form of a ConfigRequest. A parcel is modelled as the
    sequence of 32-bit ints written to it; reading consumes ints from the
    front. */
module ConfigParcel {
  import opened Wrappers
  import opened JavaInt
  import opened AwareConfig

  /** `writeToParcel`: appends four ints to `dest`, in the fixed order
      flag (1 or 0), master preference, cluster low, cluster high. */
  function WriteToParcel(dest: seq<int32>, c: ConfigRequest): (r: seq<int32>)
    ensures |r| == |dest| + 4
    ensures r[..|dest|] == dest
    ensures r[|dest|] == 0 || r[|dest|] == 1
    ensures r[|dest|] == 1 <==> c.support5gBand
    ensures r[|dest| + 1..] == [c.masterPreference, c.clusterLow, c.clusterHigh]
  {
    dest + [FlagToInt(c.support5gBand), c.masterPreference, c.clusterLow, c.clusterHigh]
  }

  /** `CREATOR.createFromParcel`: reads four ints back, treating any nonzero
      flag as true, and builds the request without validating it. Returns the
      request and the unread rest of the parcel. */
  function CreateFromParcel(p: seq<int32>): (r: (ConfigRequest, seq<int32>))
    requires |p| >= 4
    ensures r.1 == p[4..]
    ensures r.0.support5gBand <==> p[0] != 0
    ensures [r.0.masterPreference, r.0.clusterLow, r.0.clusterHigh] == p[1..4]
  {
    (ConfigRequest(p[0] != 0, p[1], p[2], p[3]), p[4..])
  }

  /** Reading back what was written gives the same request, valid or not,
      and leaves whatever followed it in the parcel unread. */
  lemma ParcelRoundTrip(c: ConfigRequest, rest: seq<int32>)
    ensures CreateFromParcel(WriteToParcel([], c) + rest) == (c, rest)
  {
  }

  /** Re-encoding a decoded request reproduces its four ints exactly when the
      flag was written as 0 or 1; any other nonzero flag is normalised to 1. */
  lemma ReencodeIsIdentityIffCanonicalFlag(p: seq<int32>)
    requires |p| >= 4
    ensures WriteToParcel([], CreateFromParcel(p).0) == p[..4] <==> (p[0] == 0 || p[0] == 1)
  {
  }

  /** Decoding does not validate: a parcel can yield a request that
      `validate()` rejects, here one whose low end exceeds its high end. */
  lemma DecodingAdmitsInvalidRequests()
    ensures Validate(CreateFromParcel([0, 0, 10, 5]).0) == Fail(ClusterLowAboveHigh)
  {
  }
}
