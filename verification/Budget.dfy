/**
  The per-tenant budgets of one scheduler and what a rollover makes of them, on mathematical
  integers. `Scheduler.dfy` shows that the loops over the 64-bit arrays compute exactly this.
 */
module Budget {
  import opened Words

  /** `SCH_ROLLOVER_WORK_CONSERVING`: the three compile-time modes. */
  datatype Mode = Off | Bucket | Drf

  datatype Resource = Cycles | Bytes

  /** `restrict_tenant`: free, or held back because of one resource. */
  datatype Restriction = Free | Bound(on: Resource)

  /** One resource of one tenant. */
  datatype Account = Account(target: nat, cap: nat, budget: nat) {
    predicate Valid() {
      target <= cap && budget <= cap
    }

    /** What the account can still take before it reaches its cap. */
    function Room(): nat {
      Monus(cap, budget)
    }
  }

  datatype Tenant = Tenant(cycle: Account, bw: Account, debt: nat) {
    function Of(r: Resource): Account {
      match r case Cycles => cycle case Bytes => bw
    }

    predicate Valid() {
      cycle.Valid() && bw.Valid() && debt <= MAX64
    }
  }

  /** What the workers charged to a tenant in one period. */
  datatype Use = Use(cycles: nat, bytes: nat) {
    function Of(r: Resource): nat {
      match r case Cycles => cycles case Bytes => bytes
    }
  }

  /** What the scheduler sees of one period: the restriction of each tenant and its use. */
  datatype Period = Period(flags: seq<Restriction>, uses: seq<Use>)

  /** What pass one of a rollover leaves to be shared. */
  datatype Pools = Pools(cycle: nat, bw: nat) {
    function Of(r: Resource): nat {
      match r case Cycles => cycle case Bytes => bw
    }
  }

  ghost predicate AllValid(ts: seq<Tenant>) {
    forall i :: 0 <= i < |ts| ==> ts[i].Valid()
  }

  predicate Fits(ts: seq<Tenant>, p: Period) {
    |p.flags| == |ts| && |p.uses| == |ts|
  }

  /** A restricted tenant has used up the resource that it is restricted for. */
  predicate SoundFlag(t: Tenant, f: Restriction, u: Use) {
    f.Bound? ==> u.Of(f.on) >= t.Of(f.on).budget
  }

  ghost predicate SoundFlags(ts: seq<Tenant>, p: Period)
    requires Fits(ts, p)
  {
    forall i :: 0 <= i < |ts| ==> SoundFlag(ts[i], p.flags[i], p.uses[i])
  }

  // ---------------------------------------------------------------- debt

  /** Overshoot becomes debt; the debt counter saturates. */
  function RecordedDebt(budget: nat, used: nat, debt: nat): nat {
    Min(debt + Monus(used, budget), MAX64)
  }

  /** The part of an overshoot that saturation loses. */
  function Forgiven(budget: nat, used: nat, debt: nat): nat {
    Monus(debt + Monus(used, budget), MAX64)
  }

  /** Debt is paid out of the cycle budget. */
  function Paid(t: Tenant): Tenant {
    t.(cycle := t.cycle.(budget := Monus(t.cycle.budget, t.debt)),
       debt := Monus(t.debt, t.cycle.budget))
  }

  // ---------------------------------------------------------------- pass one

  /** The budget after settling against target and cap, before anything is shared. */
  function SettledBudget(mode: Mode, a: Account, restricted: bool, used: nat): nat {
    var carried := Monus(a.budget, used);
    match mode
    case Off => a.target
    case Bucket => Min(a.cap, a.target + carried)
    case Drf => if restricted then Min(a.target, a.cap) else Min(a.cap, a.target + carried)
  }

  /** What settling takes away from an account: it is pooled, or dropped in mode `Off`. */
  function Offer(mode: Mode, a: Account, restricted: bool, used: nat): nat {
    Monus(a.target + Monus(a.budget, used), SettledBudget(mode, a, restricted, used))
  }

  function Settled(mode: Mode, t: Tenant, f: Restriction, u: Use): Tenant {
    Tenant(t.cycle.(budget := SettledBudget(mode, t.cycle, f == Bound(Cycles), u.cycles)),
           t.bw.(budget := SettledBudget(mode, t.bw, f == Bound(Bytes), u.bytes)),
           RecordedDebt(t.cycle.budget, u.cycles, t.debt))
  }

  function SettledAll(mode: Mode, ts: seq<Tenant>, p: Period): (r: seq<Tenant>)
    requires Fits(ts, p)
    ensures |r| == |ts|
  {
    seq(|ts|, i requires 0 <= i < |ts| => Settled(mode, ts[i], p.flags[i], p.uses[i]))
  }

  function Offers(mode: Mode, ts: seq<Tenant>, p: Period, r: Resource): (os: seq<nat>)
    requires Fits(ts, p)
    ensures |os| == |ts|
  {
    seq(|ts|, i requires 0 <= i < |ts| =>
      Offer(mode, ts[i].Of(r), p.flags[i] == Bound(r), p.uses[i].Of(r)))
  }

  function SumNat(xs: seq<nat>): nat {
    SumNonNeg(xs);
    Sum(xs)
  }

  function Pooled(mode: Mode, ts: seq<Tenant>, p: Period): Pools
    requires Fits(ts, p)
  {
    Pools(SumNat(Offers(mode, ts, p, Cycles)), SumNat(Offers(mode, ts, p, Bytes)))
  }

  // ---------------------------------------------------------------- sharing the pools

  function Rooms(ts: seq<Tenant>, r: Resource): (rs: seq<nat>)
    ensures |rs| == |ts|
  {
    seq(|ts|, i requires 0 <= i < |ts| => ts[i].Of(r).Room())
  }

  /** The tenants that are restricted. */
  function Active(flags: seq<Restriction>): set<nat> {
    set i: nat | i < |flags| && flags[i].Bound?
  }

  function ActiveCount(flags: seq<Restriction>): nat {
    |Active(flags)|
  }

  /** `1 << DRF_SHIFT`. */
  const Q20: nat := 1048576

  /** `DRF_CAP_EXTRA_Q20`: what a cap of 2/1 leaves above the target, as a ratio. */
  const DRF_CAP_EXTRA_Q20: nat := 1048576

  function RatioQ20(amount: nat, target: nat): nat {
    if amount == 0 || target == 0 then 0 else amount * Q20 / target
  }

  function DrfAlloc(delta: nat, target: nat): nat {
    delta * target / Q20
  }

  /** The targets of the tenants that are restricted for resource `r`, zero for the others. */
  function Claims(ts: seq<Tenant>, flags: seq<Restriction>, r: Resource): (cs: seq<nat>)
    requires |flags| == |ts|
    ensures |cs| == |ts|
  {
    seq(|ts|, i requires 0 <= i < |ts| => if flags[i] == Bound(r) then ts[i].Of(r).target else 0)
  }

  /** The smallest room-to-target ratio among the first `k` tenants that are restricted. */
  function MinRatio(ts: seq<Tenant>, flags: seq<Restriction>, k: nat): nat
    requires |flags| == |ts| && k <= |ts|
  {
    if k == 0 then DRF_CAP_EXTRA_Q20
    else
      match flags[k - 1]
      case Free => MinRatio(ts, flags, k - 1)
      case Bound(r) => Min(MinRatio(ts, flags, k - 1),
                           RatioQ20(ts[k - 1].Of(r).Room(), ts[k - 1].Of(r).target))
  }

  function PoolLimited(delta: nat, pool: nat, claims: nat): nat {
    if claims == 0 then delta else Min(delta, RatioQ20(pool, claims))
  }

  /** The Q20 ratio by which every restricted tenant's target is extended. */
  function CommonDelta(ts: seq<Tenant>, flags: seq<Restriction>, pools: Pools): nat
    requires |flags| == |ts|
  {
    PoolLimited(PoolLimited(MinRatio(ts, flags, |ts|), pools.cycle, SumNat(Claims(ts, flags, Cycles))),
                pools.bw, SumNat(Claims(ts, flags, Bytes)))
  }

  /** What the common ratio gives to tenant `i`: only of the resource that it is restricted for. */
  function Alloc(ts: seq<Tenant>, flags: seq<Restriction>, pools: Pools, r: Resource, i: nat): nat
    requires |flags| == |ts| && i < |ts|
  {
    if flags[i] == Bound(r) then DrfAlloc(CommonDelta(ts, flags, pools), ts[i].Of(r).target) else 0
  }

  /** What tenant `i` receives of resource `r`. */
  function Grant(mode: Mode, ts: seq<Tenant>, flags: seq<Restriction>, pools: Pools, r: Resource, i: nat): nat
    requires |flags| == |ts| && i < |ts|
  {
    match mode
    case Off => 0
    case Bucket =>
      Min(ts[i].Of(r).Room(), Monus(pools.Of(r), Sum(Rooms(ts, r)[..i])))
    case Drf =>
      if flags[i] == Free then 0
      else if ActiveCount(flags) == 1 then Min(ts[i].Of(r).Room(), pools.Of(r))
      else Alloc(ts, flags, pools, r, i)
  }

  function Grants(mode: Mode, ts: seq<Tenant>, flags: seq<Restriction>, pools: Pools, r: Resource): (gs: seq<nat>)
    requires |flags| == |ts|
    ensures |gs| == |ts|
  {
    seq(|ts|, i requires 0 <= i < |ts| => Grant(mode, ts, flags, pools, r, i))
  }

  function Granted(t: Tenant, cycles: nat, bytes: nat): Tenant {
    t.(cycle := t.cycle.(budget := t.cycle.budget + cycles),
       bw := t.bw.(budget := t.bw.budget + bytes))
  }

  function GrantedAll(ts: seq<Tenant>, cycles: seq<nat>, bytes: seq<nat>): (r: seq<Tenant>)
    requires |cycles| == |bytes| == |ts|
    ensures |r| == |ts|
  {
    seq(|ts|, i requires 0 <= i < |ts| => Granted(ts[i], cycles[i], bytes[i]))
  }

  function Shared(mode: Mode, ts: seq<Tenant>, flags: seq<Restriction>, pools: Pools): (r: seq<Tenant>)
    requires |flags| == |ts|
    ensures |r| == |ts|
  {
    GrantedAll(ts, Grants(mode, ts, flags, pools, Cycles), Grants(mode, ts, flags, pools, Bytes))
  }

  // ---------------------------------------------------------------- the rollover

  function PaidAll(ts: seq<Tenant>): (r: seq<Tenant>)
    ensures |r| == |ts|
  {
    seq(|ts|, i requires 0 <= i < |ts| => Paid(ts[i]))
  }

  /** The tenants just before debt is paid. */
  function BeforeDebt(mode: Mode, ts: seq<Tenant>, p: Period): (r: seq<Tenant>)
    requires Fits(ts, p)
    ensures |r| == |ts|
  {
    Shared(mode, SettledAll(mode, ts, p), p.flags, Pooled(mode, ts, p))
  }

  /** `sch_rollover_budget`. */
  function Rollover(mode: Mode, ts: seq<Tenant>, p: Period): (r: seq<Tenant>)
    requires Fits(ts, p)
    ensures |r| == |ts|
  {
    PaidAll(BeforeDebt(mode, ts, p))
  }

  ghost predicate AllFit(n: nat, ps: seq<Period>) {
    forall k :: 0 <= k < |ps| ==> |ps[k].flags| == n && |ps[k].uses| == n
  }

  /** The tenants after one rollover for each period of a run. */
  function Run(mode: Mode, ts: seq<Tenant>, ps: seq<Period>): (r: seq<Tenant>)
    requires AllFit(|ts|, ps)
    ensures |r| == |ts|
  {
    if ps == [] then ts
    else Rollover(mode, Run(mode, ts, ps[..|ps| - 1]), ps[|ps| - 1])
  }

  /** `sch_check_budget`: bandwidth has the last word. */
  function CheckedFlag(t: Tenant, u: Use): Restriction {
    if u.bytes >= t.bw.budget then Bound(Bytes)
    else if u.cycles >= t.cycle.budget then Bound(Cycles)
    else Free
  }

  /** The state in which `sch_ctx_init` leaves a tenant. */
  predicate Initial(t: Tenant) {
    t.Valid() && t.cycle.budget == t.cycle.target && t.bw.budget == t.bw.target && t.debt == 0
  }

  ghost predicate AllInitial(ts: seq<Tenant>) {
    forall i :: 0 <= i < |ts| ==> Initial(ts[i])
  }

  /** Targets and caps are configuration: a rollover does not touch them. */
  predicate SameConfig(a: Tenant, b: Tenant) {
    && a.cycle.target == b.cycle.target && a.cycle.cap == b.cycle.cap
    && a.bw.target == b.bw.target && a.bw.cap == b.bw.cap
  }
}
