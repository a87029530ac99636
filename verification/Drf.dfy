/**
  Mode `DRF`: every restricted tenant's budget grows by the same fixed-point fraction of its
  target. The shipped code has no clamps; these lemmas are why it needs none.
 */
module DrfSharing {
  import opened Words
  import opened Budget

  // ---------------------------------------------------------------- fixed-point arithmetic

  /** A ratio is the largest factor that keeps `factor * target` within the amount. */
  lemma RatioIsLargest(amount: nat, target: nat, d: nat)
    requires target > 0
    ensures d <= RatioQ20(amount, target) <==> d * target <= amount * Q20
  {
    var x := amount * Q20;
    if amount != 0 {
      FloorDiv(x, target, d);
    } else if d > 0 {
      assert d * target >= 1 by { Grow(1, d, target); }
    }
  }

  lemma FloorDiv(x: nat, y: nat, d: nat)
    requires y > 0
    ensures d <= x / y <==> d * y <= x
  {
    var q := x / y;
    assert x == y * q + x % y;
    if d <= q {
      Grow(d, q, y);
    } else {
      Grow(q + 1, d, y);
      assert (q + 1) * y == q * y + y;
    }
  }

  lemma AllocBounds(delta: nat, target: nat)
    ensures DrfAlloc(delta, target) * Q20 <= delta * target < DrfAlloc(delta, target) * Q20 + Q20
  {
  }

  // ---------------------------------------------------------------- what limits the common ratio

  /** A ratio that no room, no pool and no cap rejects. A restricted zero target rejects all but 0. */
  ghost predicate Feasible(ts: seq<Tenant>, flags: seq<Restriction>, pools: Pools, d: nat)
    requires |flags| == |ts|
  {
    && d <= DRF_CAP_EXTRA_Q20
    && (forall i :: 0 <= i < |ts| && flags[i].Bound? ==> FitsRoom(ts[i].Of(flags[i].on), d))
    && (forall r: Resource :: d * Sum(Claims(ts, flags, r)) <= pools.Of(r) * Q20)
  }

  predicate FitsRoom(a: Account, d: nat) {
    if a.target == 0 then d == 0 else d * a.target <= a.Room() * Q20
  }

  lemma {:induction false} MinRatioIsLargest(ts: seq<Tenant>, flags: seq<Restriction>, k: nat, d: nat)
    requires |flags| == |ts| && k <= |ts|
    ensures d <= MinRatio(ts, flags, k) <==>
              d <= DRF_CAP_EXTRA_Q20 && forall i :: 0 <= i < k && flags[i].Bound? ==> FitsRoom(ts[i].Of(flags[i].on), d)
  {
    if k > 0 {
      MinRatioIsLargest(ts, flags, k - 1, d);
      if flags[k - 1].Bound? {
        var a := ts[k - 1].Of(flags[k - 1].on);
        if a.target > 0 {
          RatioIsLargest(a.Room(), a.target, d);
        }
      }
    }
  }

  lemma PoolLimitedIsLargest(delta: nat, pool: nat, claims: nat, d: nat)
    ensures d <= PoolLimited(delta, pool, claims) <==> d <= delta && d * claims <= pool * Q20
  {
    if claims > 0 {
      RatioIsLargest(pool, claims, d);
    }
  }

  /** The common ratio is exactly the largest feasible one. */
  lemma DeltaIsLargest(ts: seq<Tenant>, flags: seq<Restriction>, pools: Pools, d: nat)
    requires |flags| == |ts|
    ensures d <= CommonDelta(ts, flags, pools) <==> Feasible(ts, flags, pools, d)
  {
    var c, b := SumNat(Claims(ts, flags, Cycles)), SumNat(Claims(ts, flags, Bytes));
    var delta := MinRatio(ts, flags, |ts|);
    MinRatioIsLargest(ts, flags, |ts|, d);
    PoolLimitedIsLargest(delta, pools.cycle, c, d);
    PoolLimitedIsLargest(PoolLimited(delta, pools.cycle, c), pools.bw, b, d);
    assert d * Sum(Claims(ts, flags, Cycles)) <= pools.Of(Cycles) * Q20 <==> d * c <= pools.cycle * Q20;
    assert d * Sum(Claims(ts, flags, Bytes)) <= pools.Of(Bytes) * Q20 <==> d * b <= pools.bw * Q20;
    assert Feasible(ts, flags, pools, d) ==
           (d <= DRF_CAP_EXTRA_Q20
            && (forall i :: 0 <= i < |ts| && flags[i].Bound? ==> FitsRoom(ts[i].Of(flags[i].on), d))
            && d * c <= pools.cycle * Q20 && d * b <= pools.bw * Q20) by {
      if (forall r: Resource :: d * Sum(Claims(ts, flags, r)) <= pools.Of(r) * Q20) {
        assert d * Sum(Claims(ts, flags, Cycles)) <= pools.Of(Cycles) * Q20;
        assert d * Sum(Claims(ts, flags, Bytes)) <= pools.Of(Bytes) * Q20;
      }
    }
  }

  // ---------------------------------------------------------------- safety without clamps

  /** The unclamped grants of `r`. */
  function Allocs(ts: seq<Tenant>, flags: seq<Restriction>, pools: Pools, r: Resource): (gs: seq<nat>)
    requires |flags| == |ts|
    ensures |gs| == |ts|
  {
    seq(|ts|, i requires 0 <= i < |ts| => Alloc(ts, flags, pools, r, i))
  }

  /** The tenants after the unclamped grants. */
  function Extended(ts: seq<Tenant>, flags: seq<Restriction>, pools: Pools): seq<Tenant>
    requires |flags| == |ts|
  {
    GrantedAll(ts, Allocs(ts, flags, pools, Cycles), Allocs(ts, flags, pools, Bytes))
  }

  /** With two or more restricted tenants this is mode `DRF`. */
  lemma ExtendedIsShared(ts: seq<Tenant>, flags: seq<Restriction>, pools: Pools)
    requires |flags| == |ts| && ActiveCount(flags) > 1
    ensures Shared(Drf, ts, flags, pools) == Extended(ts, flags, pools)
  {
    assert Grants(Drf, ts, flags, pools, Cycles) == Allocs(ts, flags, pools, Cycles);
    assert Grants(Drf, ts, flags, pools, Bytes) == Allocs(ts, flags, pools, Bytes);
  }

  /** With a zero ratio nothing changes, which is why the code may return early. */
  lemma ZeroRatio(ts: seq<Tenant>, flags: seq<Restriction>, pools: Pools)
    requires |flags| == |ts| && CommonDelta(ts, flags, pools) == 0
    ensures Extended(ts, flags, pools) == ts
  {
    forall i | 0 <= i < |ts|
      ensures Extended(ts, flags, pools)[i] == ts[i]
    {
      AllocBounds(0, ts[i].cycle.target);
      AllocBounds(0, ts[i].bw.target);
    }
  }

  function BoundCount(flags: seq<Restriction>, r: Resource): nat {
    if flags == [] then 0
    else BoundCount(flags[..|flags| - 1], r) + (if flags[|flags| - 1] == Bound(r) then 1 else 0)
  }

  /** Rounding down loses less than one unit for each grant. */
  lemma {:induction false} AllocSums(ts: seq<Tenant>, flags: seq<Restriction>, pools: Pools, r: Resource, k: nat)
    requires |flags| == |ts| && k <= |ts|
    ensures RoundedDown(Sum(Allocs(ts, flags, pools, r)[..k]), CommonDelta(ts, flags, pools),
                        Sum(Claims(ts, flags, r)[..k]), BoundCount(flags[..k], r))
  {
    if k > 0 {
      AllocSums(ts, flags, pools, r, k - 1);
      SumStep(Allocs(ts, flags, pools, r), k - 1);
      SumStep(Claims(ts, flags, r), k - 1);
      assert flags[..k][..k - 1] == flags[..k - 1];
      RoundedDownStep(Sum(Allocs(ts, flags, pools, r)[..k - 1]), CommonDelta(ts, flags, pools),
                      Sum(Claims(ts, flags, r)[..k - 1]), BoundCount(flags[..k - 1], r), Claims(ts, flags, r)[k - 1]);
    }
  }

  predicate RoundedDown(s: int, delta: int, claims: int, n: int) {
    s * Q20 <= delta * claims <= (s + n) * Q20
  }

  lemma RoundedDownStep(s: int, delta: nat, claims: int, n: int, c: nat)
    requires RoundedDown(s, delta, claims, n)
    ensures RoundedDown(s + DrfAlloc(delta, c), delta, claims + c, n + 1)
    ensures c == 0 ==> RoundedDown(s, delta, claims + c, n)
  {
    AllocBounds(delta, c);
    assert delta * (claims + c) == delta * claims + delta * c;
  }

  /**
    Any prefix of the unclamped grants fits in the pool, and each grant fits in its tenant's
    room: the clamps of the debug build never act and `pool -= alloc` never underflows.
   */
  lemma ClampsAreRedundant(ts: seq<Tenant>, flags: seq<Restriction>, pools: Pools, r: Resource, k: nat)
    requires |flags| == |ts| && k <= |ts|
    ensures Sum(Allocs(ts, flags, pools, r)[..k]) <= pools.Of(r)
    ensures forall i :: 0 <= i < |ts| ==> Allocs(ts, flags, pools, r)[i] <= ts[i].Of(r).Room()
  {
    var delta := CommonDelta(ts, flags, pools);
    DeltaIsLargest(ts, flags, pools, delta);
    AllocSums(ts, flags, pools, r, |ts|);
    SumWhole(Allocs(ts, flags, pools, r));
    SumWhole(Claims(ts, flags, r));
    SumPrefixLe(Allocs(ts, flags, pools, r), k);
    forall i | 0 <= i < |ts|
      ensures Allocs(ts, flags, pools, r)[i] <= ts[i].Of(r).Room()
    {
      AllocFitsRoom(ts, flags, pools, r, i);
    }
  }

  lemma AllocFitsRoom(ts: seq<Tenant>, flags: seq<Restriction>, pools: Pools, r: Resource, i: nat)
    requires |flags| == |ts| && i < |ts|
    ensures Alloc(ts, flags, pools, r, i) <= ts[i].Of(r).Room()
  {
    if flags[i] == Bound(r) {
      var delta := CommonDelta(ts, flags, pools);
      DeltaIsLargest(ts, flags, pools, delta);
      assert FitsRoom(ts[i].Of(r), delta);
      AllocBounds(delta, ts[i].Of(r).target);
    }
  }

  // ---------------------------------------------------------------- fairness and rounding loss

  /** Two restricted tenants grow in proportion to their targets, up to one unit of rounding. */
  lemma Fair(ts: seq<Tenant>, flags: seq<Restriction>, pools: Pools, i: nat, j: nat)
    requires |flags| == |ts| && i < |ts| && j < |ts|
    requires flags[i].Bound? && flags[j].Bound?
    requires ts[i].Of(flags[i].on).target > 0
    ensures var delta := CommonDelta(ts, flags, pools);
            var ti, tj := ts[i].Of(flags[i].on).target, ts[j].Of(flags[j].on).target;
            DrfAlloc(delta, ti) * tj - DrfAlloc(delta, tj) * ti < ti
  {
    var delta := CommonDelta(ts, flags, pools);
    var ti, tj := ts[i].Of(flags[i].on).target, ts[j].Of(flags[j].on).target;
    var ai, aj := DrfAlloc(delta, ti), DrfAlloc(delta, tj);
    AllocBounds(delta, ti);
    AllocBounds(delta, tj);
    FairArithmetic(Q20, delta, ti, tj, ai, aj);
  }

  lemma FairArithmetic(q: int, delta: int, ti: int, tj: int, ai: int, aj: int)
    requires q > 0 && ti > 0 && tj >= 0
    requires ai * q <= delta * ti
    requires delta * tj < aj * q + q
    ensures ai * tj - aj * ti < ti
  {
    UpperScaled(q, delta, ti, tj, ai);
    LowerScaled(q, delta, ti, tj, aj);
    CancelLess(ai * tj, aj * ti + ti, q);
  }

  lemma UpperScaled(q: int, delta: int, ti: int, tj: int, ai: int)
    requires tj >= 0 && ai * q <= delta * ti
    ensures (ai * tj) * q <= delta * ti * tj
  {
    Grow(ai * q, delta * ti, tj);
    assert ai * q * tj == (ai * tj) * q;
  }

  lemma LowerScaled(q: int, delta: int, ti: int, tj: int, aj: int)
    requires ti > 0 && delta * tj < aj * q + q
    ensures delta * ti * tj < (aj * ti + ti) * q
  {
    Grow(delta * tj + 1, aj * q + q, ti);
    assert (delta * tj + 1) * ti == delta * ti * tj + ti;
    assert (aj * q + q) * ti == (aj * ti + ti) * q;
  }

  /**
    When the pool of `r` is what sets the common ratio, hardly anything of it stays behind:
    less than 2^-20 of the claims plus one unit for each tenant that is restricted for `r`.
   */
  lemma {:induction false} RoundingLoss(ts: seq<Tenant>, flags: seq<Restriction>, pools: Pools, r: Resource)
    requires |flags| == |ts|
    requires Sum(Claims(ts, flags, r)) > 0
    requires CommonDelta(ts, flags, pools) == RatioQ20(pools.Of(r), Sum(Claims(ts, flags, r)))
    ensures (pools.Of(r) - Sum(Allocs(ts, flags, pools, r))) * Q20
              < Sum(Claims(ts, flags, r)) + BoundCount(flags, r) * Q20
  {
    var delta, claims := CommonDelta(ts, flags, pools), Sum(Claims(ts, flags, r));
    AllocSums(ts, flags, pools, r, |ts|);
    SumWhole(Allocs(ts, flags, pools, r));
    SumWhole(Claims(ts, flags, r));
    assert flags[..|ts|] == flags;
    RatioIsLargest(pools.Of(r), claims, delta + 1);
    LossArithmetic(pools.Of(r), delta, claims, Sum(Allocs(ts, flags, pools, r)), BoundCount(flags, r));
  }

  lemma LossArithmetic(pool: int, delta: int, claims: int, s: int, n: int)
    requires pool * Q20 < (delta + 1) * claims
    requires RoundedDown(s, delta, claims, n)
    ensures (pool - s) * Q20 < claims + n * Q20
  {
    assert (delta + 1) * claims == delta * claims + claims;
  }
}
