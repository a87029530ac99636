/** What one rollover keeps, in every mode, and where every cycle of a budget goes. */
module RolloverLaws {
  import opened Words
  import opened Budget
  import BucketSharing
  import DrfSharing

  // ---------------------------------------------------------------- the pools are never overdrawn

  lemma ActiveStep(flags: seq<Restriction>, k: nat)
    requires k < |flags|
    ensures ActiveCount(flags[..k + 1]) == ActiveCount(flags[..k]) + (if flags[k].Bound? then 1 else 0)
  {
    assert Active(flags[..k + 1]) == Active(flags[..k]) + (if flags[k].Bound? then {k} else {});
  }

  lemma NoneActive(flags: seq<Restriction>)
    ensures ActiveCount(flags) == 0 <==> forall i :: 0 <= i < |flags| ==> flags[i].Free?
  {
    if i: nat :| i < |flags| && flags[i].Bound? {
      assert i in Active(flags);
    } else {
      assert Active(flags) == {};
    }
  }

  lemma OneActive(flags: seq<Restriction>) returns (k: nat)
    requires ActiveCount(flags) == 1
    ensures k < |flags| && flags[k].Bound?
    ensures forall i :: 0 <= i < |flags| && i != k ==> flags[i].Free?
  {
    k :| k in Active(flags);
    assert |Active(flags) - {k}| == 0;
    forall i: nat | i < |flags| && i != k
      ensures flags[i].Free?
    {
      assert i !in Active(flags) - {k};
    }
  }

  /** In every mode the grants of a resource fit in its pool and each fits in its tenant's room. */
  lemma GrantsFit(mode: Mode, ts: seq<Tenant>, flags: seq<Restriction>, pools: Pools, r: Resource)
    requires |flags| == |ts|
    ensures Sum(Grants(mode, ts, flags, pools, r)) <= pools.Of(r)
    ensures forall i :: 0 <= i < |ts| ==> Grant(mode, ts, flags, pools, r, i) <= ts[i].Of(r).Room()
  {
    var gs := Grants(mode, ts, flags, pools, r);
    match mode
    case Off => SumZero(gs);
    case Bucket => BucketSharing.WorkConserving(ts, flags, pools, r);
    case Drf =>
      if ActiveCount(flags) == 0 {
        NoneActive(flags);
        SumZero(gs);
      } else if ActiveCount(flags) == 1 {
        var k := OneActive(flags);
        SumSingle(gs, k);
      } else {
        assert gs == DrfSharing.Allocs(ts, flags, pools, r);
        DrfSharing.ClampsAreRedundant(ts, flags, pools, r, |ts|);
        SumWhole(gs);
      }
  }

  // ---------------------------------------------------------------- who is restricted, and who gains

  /** The check restricts exactly the tenants that have used up a budget, and bandwidth has the last word. */
  lemma CheckIsExact(t: Tenant, u: Use)
    ensures CheckedFlag(t, u) == Bound(Bytes) <==> u.bytes >= t.bw.budget
    ensures CheckedFlag(t, u) == Bound(Cycles) <==> u.bytes < t.bw.budget && u.cycles >= t.cycle.budget
    ensures CheckedFlag(t, u) == Free <==> u.bytes < t.bw.budget && u.cycles < t.cycle.budget
  {
  }

  /** In mode `DRF` a tenant that is not restricted gains nothing. */
  lemma FreeGainNothing(ts: seq<Tenant>, flags: seq<Restriction>, pools: Pools, i: nat)
    requires |flags| == |ts| && i < |ts| && flags[i].Free?
    ensures Shared(Drf, ts, flags, pools)[i] == ts[i]
  {
  }

  /** The only restricted tenant takes all that its caps allow out of both pools, and nobody else anything. */
  lemma SingleTakesAll(ts: seq<Tenant>, flags: seq<Restriction>, pools: Pools, k: nat)
    requires |flags| == |ts| && ActiveCount(flags) == 1
    requires k < |ts| && flags[k].Bound? && ts[k].Valid()
    ensures forall r: Resource ::
              Shared(Drf, ts, flags, pools)[k].Of(r)
              == ts[k].Of(r).(budget := Min(ts[k].Of(r).cap, ts[k].Of(r).budget + pools.Of(r)))
    ensures forall i :: 0 <= i < |ts| && i != k ==> Shared(Drf, ts, flags, pools)[i] == ts[i]
  {
    var single := OneActive(flags);
    assert single == k;
    forall i | 0 <= i < |ts| && i != k
      ensures Shared(Drf, ts, flags, pools)[i] == ts[i]
    {
      FreeGainNothing(ts, flags, pools, i);
    }
  }

  /** The budget has grown by `ratio / 2^20` of the target, rounded down. */
  predicate GrownBy(before: Account, after: Account, ratio: nat) {
    var gain := after.budget - before.budget;
    after == before.(budget := after.budget) && gain * 1048576 <= ratio * before.target < (gain + 1) * 1048576
  }

  /** Among several restricted tenants each grows by the common ratio, and only in the resource it is restricted for. */
  lemma SeveralShare(ts: seq<Tenant>, flags: seq<Restriction>, pools: Pools, i: nat)
    requires |flags| == |ts| && ActiveCount(flags) > 1 && i < |ts| && flags[i].Bound?
    ensures forall r: Resource ::
              var before, after := ts[i].Of(r), Shared(Drf, ts, flags, pools)[i].Of(r);
              if r == flags[i].on then GrownBy(before, after, CommonDelta(ts, flags, pools)) else after == before
  {
    DrfSharing.AllocBounds(CommonDelta(ts, flags, pools), ts[i].Of(flags[i].on).target);
  }

  /** The largest ratio takes a tenant from its target to just the cap that initialisation gives it. */
  lemma FullExtensionReachesCap(target: nat)
    ensures target + DrfAlloc(DRF_CAP_EXTRA_Q20, target) == 2 * target
  {
  }

  // ---------------------------------------------------------------- the invariant

  /** A rollover keeps the configuration and leaves budgets within caps and no tenant with both budget and debt. */
  lemma RolloverKeepsValid(mode: Mode, ts: seq<Tenant>, p: Period)
    requires Fits(ts, p) && AllValid(ts)
    ensures AllValid(BeforeDebt(mode, ts, p)) && AllValid(Rollover(mode, ts, p))
    ensures forall i :: 0 <= i < |ts| ==>
              var t := Rollover(mode, ts, p)[i];
              SameConfig(t, ts[i]) && (t.cycle.budget == 0 || t.debt == 0)
  {
    var mid, pools := SettledAll(mode, ts, p), Pooled(mode, ts, p);
    GrantsFit(mode, mid, p.flags, pools, Cycles);
    GrantsFit(mode, mid, p.flags, pools, Bytes);
    var before := BeforeDebt(mode, ts, p);
    forall i | 0 <= i < |ts|
      ensures before[i].Valid() && SameConfig(before[i], ts[i])
    {
      assert ts[i].Valid() && mid[i] == Settled(mode, ts[i], p.flags[i], p.uses[i]);
    }
    PayKeepsValid(before);
  }

  lemma PayKeepsValid(ts: seq<Tenant>)
    requires AllValid(ts)
    ensures AllValid(PaidAll(ts))
    ensures forall i :: 0 <= i < |ts| ==>
              var t := PaidAll(ts)[i];
              SameConfig(t, ts[i]) && (t.cycle.budget == 0 || t.debt == 0)
  {
    forall i | 0 <= i < |ts|
      ensures PaidAll(ts)[i].Valid()
    {
      assert ts[i].Valid();
    }
  }

  /** Before debt is paid every budget has reached its target, in every mode. */
  lemma TargetReached(mode: Mode, ts: seq<Tenant>, p: Period, r: Resource, i: nat)
    requires Fits(ts, p) && i < |ts| && ts[i].Valid()
    ensures BeforeDebt(mode, ts, p)[i].Of(r).budget >= ts[i].Of(r).target
  {
    assert SettledAll(mode, ts, p)[i] == Settled(mode, ts[i], p.flags[i], p.uses[i]);
  }

  /** A restricted resource carries nothing over: it settles to its target without being reclaimed. */
  lemma SoundFlagSettlesToTarget(a: Account, used: nat)
    requires a.Valid() && used >= a.budget
    ensures SettledBudget(Drf, a, true, used) == SettledBudget(Drf, a, false, used)
            == SettledBudget(Bucket, a, true, used) == a.target
    ensures Offer(Drf, a, true, used) == 0
  {
  }

  /**
    Fairness of a whole rollover: restricted tenants end up with budgets in proportion to their
    targets, whatever their former budgets and rooms were, up to one unit of rounding.
   */
  lemma RestrictedBudgetsAreProportional(ts: seq<Tenant>, p: Period, i: nat, j: nat)
    requires Fits(ts, p) && AllValid(ts) && i < |ts| && j < |ts|
    requires ActiveCount(p.flags) > 1 && p.flags[i].Bound? && p.flags[j].Bound?
    requires ts[i].Of(p.flags[i].on).target > 0
    ensures var after := BeforeDebt(Drf, ts, p);
            var ai, aj := after[i].Of(p.flags[i].on), after[j].Of(p.flags[j].on);
            ai.budget * aj.target - aj.budget * ai.target < ai.target
  {
    var mid, pools := SettledAll(Drf, ts, p), Pooled(Drf, ts, p);
    DrfSharing.ExtendedIsShared(mid, p.flags, pools);
    BoundBudget(ts, p, i);
    BoundBudget(ts, p, j);
    DrfSharing.Fair(mid, p.flags, pools, i, j);
    var delta := CommonDelta(mid, p.flags, pools);
    var ti, tj := ts[i].Of(p.flags[i].on).target, ts[j].Of(p.flags[j].on).target;
    ShiftByTargets(ti, tj, DrfAlloc(delta, ti), DrfAlloc(delta, tj));
  }

  /** A restricted account ends at its target plus its grant. */
  lemma BoundBudget(ts: seq<Tenant>, p: Period, i: nat)
    requires Fits(ts, p) && AllValid(ts) && i < |ts| && p.flags[i].Bound?
    ensures var mid, pools, r := SettledAll(Drf, ts, p), Pooled(Drf, ts, p), p.flags[i].on;
            && mid[i].Of(r).target == mid[i].Of(r).budget == ts[i].Of(r).target
            && DrfSharing.Extended(mid, p.flags, pools)[i].Of(r)
               == ts[i].Of(r).(budget := ts[i].Of(r).target
                                         + DrfAlloc(CommonDelta(mid, p.flags, pools), ts[i].Of(r).target))
  {
    assert ts[i].Valid();
    assert SettledAll(Drf, ts, p)[i] == Settled(Drf, ts[i], p.flags[i], p.uses[i]);
  }

  lemma ShiftByTargets(ti: int, tj: int, ai: int, aj: int)
    ensures (ti + ai) * tj - (tj + aj) * ti == ai * tj - aj * ti
  {
  }

  /** Mode `DRF` settles like mode `BUCKET` and then cuts a restricted account back to its target. */
  lemma ReclaimSettles(t: Tenant, f: Restriction, u: Use)
    requires t.Valid()
    ensures var s := Settled(Bucket, t, f, u);
            Settled(Drf, t, f, u)
            == match f
               case Free => s
               case Bound(Cycles) => s.(cycle := s.cycle.(budget := s.cycle.target))
               case Bound(Bytes) => s.(bw := s.bw.(budget := s.bw.target))
  {
  }

  lemma {:induction false} RunningSumAt(xs: seq<nat>, ps: seq<nat>, k: nat)
    requires RunningSums(xs, ps) && k <= |xs|
    ensures ps[k] == Sum(xs[..k])
  {
    if k > 0 {
      RunningSumAt(xs, ps, k - 1);
      SumStep(xs, k - 1);
      assert ps[k - 1] + xs[k - 1] == ps[k];
    }
  }

  lemma BucketShares(ts: seq<Tenant>, flags: seq<Restriction>, pools: Pools, cycleBefore: seq<nat>, bwBefore: seq<nat>)
    requires |flags| == |ts|
    requires RunningSums(Rooms(ts, Cycles), cycleBefore) && RunningSums(Rooms(ts, Bytes), bwBefore)
    ensures forall i :: 0 <= i < |ts| ==>
              Shared(Bucket, ts, flags, pools)[i]
              == Granted(ts[i], Min(ts[i].cycle.Room(), Monus(pools.cycle, cycleBefore[i])),
                         Min(ts[i].bw.Room(), Monus(pools.bw, bwBefore[i])))
  {
    forall i | 0 <= i < |ts|
      ensures cycleBefore[i] == Sum(Rooms(ts, Cycles)[..i]) && bwBefore[i] == Sum(Rooms(ts, Bytes)[..i])
    {
      RunningSumAt(Rooms(ts, Cycles), cycleBefore, i);
      RunningSumAt(Rooms(ts, Bytes), bwBefore, i);
    }
  }

  lemma OffSharesNothing(ts: seq<Tenant>, flags: seq<Restriction>, pools: Pools)
    requires |flags| == |ts|
    ensures Shared(Off, ts, flags, pools) == ts
  {
  }

  lemma OfferFits(mode: Mode, a: Account, restricted: bool, used: nat)
    requires a.Valid()
    ensures Offer(mode, a, restricted, used) <= a.cap
  {
  }

  /** Pools are bounded by what the tenants may own, which is what keeps 64-bit sums from wrapping. */
  lemma PoolsAreBounded(mode: Mode, ts: seq<Tenant>, p: Period, r: Resource, k: nat)
    requires Fits(ts, p) && AllValid(ts) && k <= |ts|
    ensures 0 <= Sum(Offers(mode, ts, p, r)[..k]) <= Pooled(mode, ts, p).Of(r) <= Sum(Caps(ts, r))
    ensures Sum(Claims(SettledAll(mode, ts, p), p.flags, r)[..k]) <= Sum(Caps(ts, r))
  {
    var claims := Claims(SettledAll(mode, ts, p), p.flags, r);
    SumPrefixLe(Offers(mode, ts, p, r), k);
    SumPrefixLe(claims, k);
    forall i | 0 <= i < |ts|
      ensures Offers(mode, ts, p, r)[i] <= Caps(ts, r)[i] && claims[i] <= Caps(ts, r)[i]
    {
      assert ts[i].Valid();
      OfferFits(mode, ts[i].Of(r), p.flags[i] == Bound(r), p.uses[i].Of(r));
    }
    SumLe(Offers(mode, ts, p, r), Caps(ts, r));
    SumLe(claims, Caps(ts, r));
  }

  function Caps(ts: seq<Tenant>, r: Resource): (cs: seq<nat>)
    ensures |cs| == |ts|
  {
    seq(|ts|, i requires 0 <= i < |ts| => ts[i].Of(r).cap)
  }

  lemma RolloverKeepsCaps(mode: Mode, ts: seq<Tenant>, p: Period)
    requires Fits(ts, p) && AllValid(ts)
    ensures forall r: Resource :: Caps(Rollover(mode, ts, p), r) == Caps(ts, r)
  {
    RolloverKeepsValid(mode, ts, p);
    forall r: Resource
      ensures Caps(Rollover(mode, ts, p), r) == Caps(ts, r)
    {
      forall i | 0 <= i < |ts|
        ensures Caps(Rollover(mode, ts, p), r)[i] == Caps(ts, r)[i]
      {
        assert SameConfig(Rollover(mode, ts, p)[i], ts[i]);
      }
    }
  }

  // ---------------------------------------------------------------- the ledger of one rollover

  function Nets(ts: seq<Tenant>): (ns: seq<int>)
    ensures |ns| == |ts|
  {
    seq(|ts|, i requires 0 <= i < |ts| => ts[i].cycle.budget - ts[i].debt)
  }

  function CycleTargets(ts: seq<Tenant>): (xs: seq<nat>)
    ensures |xs| == |ts|
  {
    seq(|ts|, i requires 0 <= i < |ts| => ts[i].cycle.target)
  }

  function CycleUses(p: Period): (xs: seq<nat>)
    ensures |xs| == |p.uses|
  {
    seq(|p.uses|, i requires 0 <= i < |p.uses| => p.uses[i].cycles)
  }

  function Lost(ts: seq<Tenant>, p: Period): (xs: seq<nat>)
    requires Fits(ts, p)
    ensures |xs| == |ts|
  {
    seq(|ts|, i requires 0 <= i < |ts| => Forgiven(ts[i].cycle.budget, p.uses[i].cycles, ts[i].debt))
  }

  /** What is left in the cycle pool when sharing is over. */
  function Dropped(mode: Mode, ts: seq<Tenant>, p: Period): int
    requires Fits(ts, p)
  {
    Pooled(mode, ts, p).cycle - Sum(Grants(mode, SettledAll(mode, ts, p), p.flags, Pooled(mode, ts, p), Cycles))
  }

  /** Saturation loses something exactly when the true debt does not fit in 64 bits. */
  lemma ForgivenExactly(budget: nat, used: nat, debt: nat)
    ensures RecordedDebt(budget, used, debt) + Forgiven(budget, used, debt) == debt + Monus(used, budget)
    ensures Forgiven(budget, used, debt) == 0 <==> debt + Monus(used, budget) <= MAX64
  {
  }

  /** Pass one: what an account had and gains is what it keeps plus what it offers. */
  lemma SettleBalance(mode: Mode, a: Account, restricted: bool, used: nat)
    requires a.Valid()
    ensures SettledBudget(mode, a, restricted, used) + Offer(mode, a, restricted, used)
            == a.target + Monus(a.budget, used)
  {
  }

  lemma SettleLedger(mode: Mode, ts: seq<Tenant>, p: Period)
    requires Fits(ts, p) && AllValid(ts)
    ensures Sum(Nets(SettledAll(mode, ts, p))) + Sum(Offers(mode, ts, p, Cycles)) + Sum(CycleUses(p))
            == Sum(Nets(ts)) + Sum(CycleTargets(ts)) + Sum(Lost(ts, p))
  {
    var mid, offers := SettledAll(mode, ts, p), Offers(mode, ts, p, Cycles);
    var total := seq(|ts|, i requires 0 <= i < |ts| => Nets(ts)[i] + ts[i].cycle.target + Lost(ts, p)[i]);
    forall i | 0 <= i < |ts|
      ensures total[i] == Nets(mid)[i] + offers[i] + CycleUses(p)[i]
    {
      assert ts[i].Valid();
      SettleBalance(mode, ts[i].cycle, p.flags[i] == Bound(Cycles), p.uses[i].cycles);
      ForgivenExactly(ts[i].cycle.budget, p.uses[i].cycles, ts[i].debt);
    }
    SumOfThree(Nets(mid), offers, CycleUses(p), total);
    SumOfThree(Nets(ts), CycleTargets(ts), Lost(ts, p), total);
  }

  /** Handing out grants adds them; paying debt takes as much from the budget as from the debt. */
  lemma ShareLedger(mode: Mode, mid: seq<Tenant>, flags: seq<Restriction>, pools: Pools)
    requires |flags| == |mid|
    ensures Sum(Nets(PaidAll(Shared(mode, mid, flags, pools))))
            == Sum(Nets(mid)) + Sum(Grants(mode, mid, flags, pools, Cycles))
  {
    var after, grants := Nets(PaidAll(Shared(mode, mid, flags, pools))), Grants(mode, mid, flags, pools, Cycles);
    var zeros := seq(|mid|, i => 0);
    SumZero(zeros);
    forall i | 0 <= i < |mid|
      ensures after[i] + zeros[i] == Nets(mid)[i] + grants[i]
    {
      NetOfGranted(mid[i], grants[i], Grant(mode, mid, flags, pools, Bytes, i));
    }
    SumBalance(after, zeros, Nets(mid), grants);
  }

  lemma NetOfGranted(t: Tenant, cycles: nat, bytes: nat)
    ensures var g := Paid(Granted(t, cycles, bytes));
            g.cycle.budget - g.debt == t.cycle.budget - t.debt + cycles
  {
  }

  /**
    Every cycle is accounted for: budgets minus debts change by the targets paid in, minus
    what was used, minus what no one could take, plus what a saturated debt counter forgot.
   */
  lemma RolloverLedger(mode: Mode, ts: seq<Tenant>, p: Period)
    requires Fits(ts, p) && AllValid(ts)
    ensures Sum(Nets(Rollover(mode, ts, p))) + Dropped(mode, ts, p)
            == Sum(Nets(ts)) + Sum(CycleTargets(ts)) - Sum(CycleUses(p)) + Sum(Lost(ts, p))
    ensures Dropped(mode, ts, p) >= 0
  {
    SettleLedger(mode, ts, p);
    ShareLedger(mode, SettledAll(mode, ts, p), p.flags, Pooled(mode, ts, p));
    GrantsFit(mode, SettledAll(mode, ts, p), p.flags, Pooled(mode, ts, p), Cycles);
  }

  /** What an account has after settling with nothing taken from it: its target and what it did not use. */
  function Entitled(ts: seq<Tenant>, p: Period, r: Resource): (xs: seq<nat>)
    requires Fits(ts, p)
    ensures |xs| == |ts|
  {
    seq(|ts|, i requires 0 <= i < |ts| => ts[i].Of(r).target + Monus(ts[i].Of(r).budget, p.uses[i].Of(r)))
  }

  function Budgets(ts: seq<Tenant>, r: Resource): (xs: seq<nat>)
    ensures |xs| == |ts|
  {
    seq(|ts|, i requires 0 <= i < |ts| => ts[i].Of(r).budget)
  }

  /**
    Cycles and bytes alike: what the tenants are entitled to is after sharing in their budgets,
    but for what is left in the pool. Nothing is lost on the way and nothing made up.
   */
  lemma PoolLedger(mode: Mode, ts: seq<Tenant>, p: Period, r: Resource)
    requires Fits(ts, p) && AllValid(ts)
    ensures var grants := Sum(Grants(mode, SettledAll(mode, ts, p), p.flags, Pooled(mode, ts, p), r));
            && Sum(Budgets(BeforeDebt(mode, ts, p), r)) + (Pooled(mode, ts, p).Of(r) - grants)
               == Sum(Entitled(ts, p, r))
            && 0 <= grants <= Pooled(mode, ts, p).Of(r)
  {
    var mid, pools, offers := SettledAll(mode, ts, p), Pooled(mode, ts, p), Offers(mode, ts, p, r);
    var grants, zeros := Grants(mode, mid, p.flags, pools, r), seq(|ts|, i => 0);
    forall i | 0 <= i < |ts|
      ensures Budgets(mid, r)[i] + offers[i] == Entitled(ts, p, r)[i] + zeros[i]
    {
      assert ts[i].Valid();
      SettleBalance(mode, ts[i].Of(r), p.flags[i] == Bound(r), p.uses[i].Of(r));
    }
    SumBalance(Budgets(mid, r), offers, Entitled(ts, p, r), zeros);
    SumZero(zeros);
    SumBalance(Budgets(BeforeDebt(mode, ts, p), r), zeros, Budgets(mid, r), grants);
    GrantsFit(mode, mid, p.flags, pools, r);
    SumNonNeg(grants);
  }

  lemma {:induction false} SumOfThree(a: seq<int>, b: seq<int>, c: seq<int>, abc: seq<int>)
    requires |a| == |b| == |c| == |abc|
    requires forall i :: 0 <= i < |a| ==> abc[i] == a[i] + b[i] + c[i]
    ensures Sum(abc) == Sum(a) + Sum(b) + Sum(c)
  {
    if a != [] {
      var n := |a| - 1;
      SumOfThree(a[..n], b[..n], c[..n], abc[..n]);
    }
  }
}
