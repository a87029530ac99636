/** The order-dependent hand-out of mode `BUCKET` is work conserving. */
module BucketSharing {
  import opened Words
  import opened Budget

  /**
    Whatever the order of the tenants, the receive loop hands out all that fits: after the
    first `k` tenants, the smaller of the pool and of their rooms.
   */
  lemma {:induction false} HandsOutAllThatFits(ts: seq<Tenant>, flags: seq<Restriction>, pools: Pools,
                                               r: Resource, k: nat)
    requires |flags| == |ts| && k <= |ts|
    ensures Sum(Grants(Bucket, ts, flags, pools, r)[..k]) == Min(pools.Of(r), Sum(Rooms(ts, r)[..k]))
  {
    if k > 0 {
      HandsOutAllThatFits(ts, flags, pools, r, k - 1);
      SumStep(Grants(Bucket, ts, flags, pools, r), k - 1);
      SumStep(Rooms(ts, r), k - 1);
    }
  }

  lemma WorkConserving(ts: seq<Tenant>, flags: seq<Restriction>, pools: Pools, r: Resource)
    requires |flags| == |ts|
    ensures Sum(Grants(Bucket, ts, flags, pools, r)) == Min(pools.Of(r), Sum(Rooms(ts, r)))
  {
    HandsOutAllThatFits(ts, flags, pools, r, |ts|);
    SumWhole(Grants(Bucket, ts, flags, pools, r));
    SumWhole(Rooms(ts, r));
  }

  /** Something is left in a pool only when every tenant is at its cap for that resource. */
  lemma LeftoverMeansAllFull(ts: seq<Tenant>, flags: seq<Restriction>, pools: Pools, r: Resource)
    requires |flags| == |ts| && AllValid(ts)
    requires Sum(Grants(Bucket, ts, flags, pools, r)) < pools.Of(r)
    ensures forall i :: 0 <= i < |ts| ==>
              Shared(Bucket, ts, flags, pools)[i].Of(r).budget == ts[i].Of(r).cap
  {
    WorkConserving(ts, flags, pools, r);
    var rooms := Rooms(ts, r);
    forall i | 0 <= i < |ts|
      ensures Shared(Bucket, ts, flags, pools)[i].Of(r).budget == ts[i].Of(r).cap
    {
      SumPrefixLe(rooms, i + 1);
      SumStep(rooms, i);
    }
  }
}
