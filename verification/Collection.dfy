/** The interleaved rollovers compute the same as the budget engine run on the collected uses. */
module Collection {
  import opened Words
  import opened Budget
  import opened Apportion
  import opened RolloverLaws
  import opened RunLaws
  import opened Protocol
  import opened Interleaving

  /** The tenants after all completed rollovers, from the specification. */
  ghost function Base(cfg: Config, s: State): (ts: seq<Tenant>)
    requires AllFit(cfg.Tenants(), s.past.periods)
    ensures |ts| == cfg.Tenants()
  {
    Run(cfg.mode, cfg.initial, s.past.periods)
  }

  predicate InPassOne(pc: Control) {
    pc.TakeCycles? || pc.TakeBytes? || pc.Release?
  }

  /** The offers of the tenants collected so far. */
  function PartialOffers(mode: Mode, base: seq<Tenant>, seen: seq<Restriction>, taken: seq<Use>, r: Resource)
    : (os: seq<nat>)
    requires |taken| <= |base| == |seen|
    ensures |os| == |taken|
  {
    seq(|taken|, i requires 0 <= i < |taken| => Offer(mode, base[i].Of(r), seen[i] == Bound(r), taken[i].Of(r)))
  }

  function PartialPools(mode: Mode, base: seq<Tenant>, seen: seq<Restriction>, taken: seq<Use>): Pools
    requires |taken| <= |base| == |seen|
  {
    Pools(SumNat(PartialOffers(mode, base, seen, taken, Cycles)), SumNat(PartialOffers(mode, base, seen, taken, Bytes)))
  }

  ghost predicate HalfSettled(mode: Mode, base: seq<Tenant>, s: State)
    requires |s.taken| <= |base| == |s.seen| == |s.tenants| == |s.flags|
  {
    && (forall i :: 0 <= i < |s.taken| ==> s.tenants[i] == Settled(mode, base[i], s.seen[i], s.taken[i]))
    && (forall i :: |s.taken| <= i < |base| ==> s.tenants[i] == base[i] && s.flags[i] == s.seen[i])
    && s.pools == PartialPools(mode, base, s.seen, s.taken)
  }

  /** The accounts of the scheduler are always where the specification says. */
  ghost predicate Linked(cfg: Config, s: State)
    requires WellFormed(cfg, s)
  {
    if Checking(s.pc) then s.tenants == Base(cfg, s)
    else if InPassOne(s.pc) then HalfSettled(cfg.mode, Base(cfg, s), s)
    else s.tenants == BeforeDebt(cfg.mode, Base(cfg, s), Period(s.seen, s.taken))
  }

  lemma PoolStep(mode: Mode, base: seq<Tenant>, seen: seq<Restriction>, taken: seq<Use>, u: Use)
    requires |taken| < |base| == |seen|
    ensures var t := |taken|;
            PartialPools(mode, base, seen, taken + [u])
            == Added(mode, PartialPools(mode, base, seen, taken), base[t], seen[t], u)
  {
    var t := |taken|;
    forall r: Resource
      ensures PartialOffers(mode, base, seen, taken + [u], r)[..t] == PartialOffers(mode, base, seen, taken, r)
    {
    }
    assert PartialOffers(mode, base, seen, taken + [u], Cycles)[..t] == PartialOffers(mode, base, seen, taken, Cycles);
    assert PartialOffers(mode, base, seen, taken + [u], Bytes)[..t] == PartialOffers(mode, base, seen, taken, Bytes);
  }

  lemma PoolsComplete(mode: Mode, base: seq<Tenant>, seen: seq<Restriction>, taken: seq<Use>)
    requires |taken| == |base| == |seen|
    ensures PartialPools(mode, base, seen, taken) == Pooled(mode, base, Period(seen, taken))
  {
    assert PartialOffers(mode, base, seen, taken, Cycles) == Offers(mode, base, Period(seen, taken), Cycles);
    assert PartialOffers(mode, base, seen, taken, Bytes) == Offers(mode, base, Period(seen, taken), Bytes);
  }

  lemma {:induction false} RunSnoc(mode: Mode, ts: seq<Tenant>, ps: seq<Period>, p: Period)
    requires AllFit(|ts|, ps) && Fits(ts, p)
    ensures AllFit(|ts|, ps + [p]) && Run(mode, ts, ps + [p]) == Rollover(mode, Run(mode, ts, ps), p)
  {
    assert (ps + [p])[..|ps|] == ps;
  }

  lemma TakeBytesStep(cfg: Config, s: State)
    requires WellFormed(cfg, s) && WellFormed(cfg, SchedulerNext(cfg, s)) && Linked(cfg, s)
    requires s.pc.TakeBytes?
    ensures Linked(cfg, SchedulerNext(cfg, s))
  {
    PoolStep(cfg.mode, Base(cfg, s), s.seen, s.taken, Use(s.pc.cycles, s.bytes[s.pc.t]));
    assert SchedulerNext(cfg, s).past.periods == s.past.periods;
  }

  lemma CollectStep(cfg: Config, s: State)
    requires WellFormed(cfg, s) && WellFormed(cfg, SchedulerNext(cfg, s)) && Linked(cfg, s)
    requires s.pc.TakeCycles? || s.pc.Release?
    ensures Linked(cfg, SchedulerNext(cfg, s))
  {
    if s.pc == TakeCycles(cfg.Tenants()) {
      ShareStep(cfg, s);
    }
  }

  lemma ShareStep(cfg: Config, s: State)
    requires WellFormed(cfg, s) && WellFormed(cfg, SchedulerNext(cfg, s)) && Linked(cfg, s)
    requires s.pc == TakeCycles(cfg.Tenants())
    ensures Linked(cfg, SchedulerNext(cfg, s))
  {
    CollectionComplete(cfg.mode, Base(cfg, s), s);
    assert SchedulerNext(cfg, s).past.periods == s.past.periods;
  }

  /** When every tenant is collected, sharing takes the tenants where the specification does. */
  lemma CollectionComplete(mode: Mode, base: seq<Tenant>, s: State)
    requires |s.taken| == |base| == |s.seen| == |s.tenants| == |s.flags| && HalfSettled(mode, base, s)
    ensures Shared(mode, s.tenants, s.seen, s.pools) == BeforeDebt(mode, base, Period(s.seen, s.taken))
  {
    PoolsComplete(mode, base, s.seen, s.taken);
    assert s.tenants == SettledAll(mode, base, Period(s.seen, s.taken));
  }

  lemma StartStep(cfg: Config, s: State)
    requires WellFormed(cfg, s) && WellFormed(cfg, SchedulerNext(cfg, s)) && Linked(cfg, s)
    requires Checking(s.pc)
    ensures Linked(cfg, SchedulerNext(cfg, s))
  {
  }

  lemma FinishStep(cfg: Config, s: State)
    requires WellFormed(cfg, s) && WellFormed(cfg, SchedulerNext(cfg, s)) && Linked(cfg, s)
    requires s.pc.Clear? || s.pc.Pay?
    ensures Linked(cfg, SchedulerNext(cfg, s))
  {
    if s.pc.Pay? {
      RunSnoc(cfg.mode, cfg.initial, s.past.periods, Period(s.seen, s.taken));
    }
  }

  lemma SchedulerStaysLinked(cfg: Config, s: State)
    requires WellFormed(cfg, s) && WellFormed(cfg, SchedulerNext(cfg, s)) && Linked(cfg, s)
    ensures Linked(cfg, SchedulerNext(cfg, s))
  {
    if Checking(s.pc) {
      StartStep(cfg, s);
    } else if s.pc.TakeBytes? {
      TakeBytesStep(cfg, s);
    } else if InPassOne(s.pc) {
      CollectStep(cfg, s);
    } else {
      FinishStep(cfg, s);
    }
  }

  // ---------------------------------------------------------------- what was collected

  /** What the current rollover has collected of tenant `i`. */
  function InHand(s: State, i: nat, r: Resource): nat {
    if Checking(s.pc) then 0
    else
      (if i < |s.taken| then s.taken[i].Of(r) else 0)
      + (if s.pc.TakeBytes? && s.pc.t == i && r == Cycles then s.pc.cycles else 0)
  }

  ghost predicate CollectedAt(cfg: Config, s: State, i: nat, r: Resource)
    requires WellFormed(cfg, s) && i < cfg.Tenants()
  {
    s.past.collected[i].Of(r) == UsedBy(s.past.periods, i, r) + InHand(s, i, r)
  }

  ghost predicate Collected(cfg: Config, s: State)
    requires WellFormed(cfg, s)
  {
    forall i, r :: 0 <= i < cfg.Tenants() ==> CollectedAt(cfg, s, i, r)
  }

  lemma {:induction false} UsedBySnoc(ps: seq<Period>, p: Period, i: nat, r: Resource)
    requires forall k :: 0 <= k < |ps| ==> i < |ps[k].uses|
    requires i < |p.uses|
    ensures UsedBy(ps + [p], i, r) == UsedBy(ps, i, r) + p.uses[i].Of(r)
  {
    assert (ps + [p])[..|ps|] == ps;
  }

  lemma PayCollectsAt(cfg: Config, s: State, i: nat, r: Resource)
    requires WellFormed(cfg, s) && WellFormed(cfg, SchedulerNext(cfg, s)) && i < cfg.Tenants()
    requires CollectedAt(cfg, s, i, r) && s.pc.Pay?
    ensures CollectedAt(cfg, SchedulerNext(cfg, s), i, r)
  {
    UsedBySnoc(s.past.periods, Period(s.seen, s.taken), i, r);
  }

  /** What leaves a counter is in the hands of the rollover. */
  lemma CollectedMoves(cfg: Config, s: State, i: nat, r: Resource)
    requires WellFormed(cfg, s) && i < cfg.Tenants() && !s.pc.Pay?
    ensures var s' := SchedulerNext(cfg, s);
            |s'.past.collected| == cfg.Tenants()
            && s'.past.collected[i].Of(r) - s.past.collected[i].Of(r) == InHand(s', i, r) - InHand(s, i, r)
  {
  }

  lemma SchedulerCollectsAt(cfg: Config, s: State, i: nat, r: Resource)
    requires WellFormed(cfg, s) && WellFormed(cfg, SchedulerNext(cfg, s)) && i < cfg.Tenants()
    requires CollectedAt(cfg, s, i, r)
    ensures CollectedAt(cfg, SchedulerNext(cfg, s), i, r)
  {
    if s.pc.Pay? {
      PayCollectsAt(cfg, s, i, r);
    } else {
      var s' := SchedulerNext(cfg, s);
      assert s'.past.periods == s.past.periods;
      CollectedMoves(cfg, s, i, r);
    }
  }

  // ---------------------------------------------------------------- sound flags

  predicate AllCounted(s: State, i: nat)
    requires i < |s.past.charged|
  {
    Counted(s, i, Cycles) && Counted(s, i, Bytes)
  }

  /** The flags that rollovers have seen were sound: of the current one, and of all before. */
  ghost predicate SoundAt(cfg: Config, s: State, i: nat)
    requires WellFormed(cfg, s) && i < cfg.Tenants()
  {
    AllCounted(s, i) ==>
      && SoundRun(cfg.mode, cfg.initial, s.past.periods, i)
      && (!Checking(s.pc) && i < |s.taken| ==> SoundFlag(Base(cfg, s)[i], s.seen[i], s.taken[i]))
  }

  ghost predicate Sound(cfg: Config, s: State)
    requires WellFormed(cfg, s)
  {
    forall i :: 0 <= i < cfg.Tenants() ==> SoundAt(cfg, s, i)
  }

  lemma {:induction false} SoundRunSnoc(mode: Mode, ts: seq<Tenant>, ps: seq<Period>, p: Period, i: nat)
    requires AllFit(|ts|, ps) && Fits(ts, p) && i < |ts|
    requires SoundRun(mode, ts, ps, i) && SoundFlag(Run(mode, ts, ps)[i], p.flags[i], p.uses[i])
    ensures AllFit(|ts|, ps + [p]) && SoundRun(mode, ts, ps + [p], i)
  {
    assert (ps + [p])[..|ps|] == ps;
  }

  lemma PayStaysSoundAt(cfg: Config, s: State, i: nat)
    requires WellFormed(cfg, s) && WellFormed(cfg, SchedulerNext(cfg, s)) && i < cfg.Tenants()
    requires SoundAt(cfg, s, i) && s.pc.Pay?
    ensures SoundAt(cfg, SchedulerNext(cfg, s), i)
  {
    var s', p := SchedulerNext(cfg, s), Period(s.seen, s.taken);
    assert s'.past.periods == s.past.periods + [p] && s'.past.charged == s.past.charged && Checking(s'.pc);
    if AllCounted(s, i) {
      assert SoundFlag(Base(cfg, s)[i], p.flags[i], p.uses[i]);
      SoundRunSnoc(cfg.mode, cfg.initial, s.past.periods, p, i);
    }
  }

  lemma TakeBytesStaysSoundAt(cfg: Config, s: State, i: nat)
    requires WellFormed(cfg, s) && WellFormed(cfg, SchedulerNext(cfg, s)) && i < cfg.Tenants()
    requires SoundAt(cfg, s, i) && Linked(cfg, s) && Earned(cfg, s) && s.pc.TakeBytes?
    ensures SoundAt(cfg, SchedulerNext(cfg, s), i)
  {
    var s' := SchedulerNext(cfg, s);
    assert s'.past.periods == s.past.periods && s'.past.charged == s.past.charged && s'.seen == s.seen;
    assert s'.taken == s.taken + [Use(s.pc.cycles, s.bytes[s.pc.t])];
    if i == s.pc.t && AllCounted(s, i) {
      TakenFlagIsSound(cfg, s);
    }
  }

  /** The flag of the tenant being collected is sound for what is collected. */
  lemma TakenFlagIsSound(cfg: Config, s: State)
    requires WellFormed(cfg, s) && s.pc.TakeBytes? && Linked(cfg, s) && Earned(cfg, s) && AllCounted(s, s.pc.t)
    ensures SoundFlag(Base(cfg, s)[s.pc.t], s.seen[s.pc.t], Use(s.pc.cycles, s.bytes[s.pc.t]))
  {
    var t, base := s.pc.t, Base(cfg, s);
    assert s.tenants[t] == base[t] && s.flags[t] == s.seen[t];
    assert EarnedAt(cfg, s, t, Bytes);
  }

  lemma SchedulerStaysSoundAt(cfg: Config, s: State, i: nat)
    requires WellFormed(cfg, s) && WellFormed(cfg, SchedulerNext(cfg, s)) && i < cfg.Tenants()
    requires SoundAt(cfg, s, i) && Linked(cfg, s) && Earned(cfg, s)
    ensures SoundAt(cfg, SchedulerNext(cfg, s), i)
  {
    if s.pc.Pay? {
      PayStaysSoundAt(cfg, s, i);
    } else if s.pc.TakeBytes? {
      TakeBytesStaysSoundAt(cfg, s, i);
    } else {
      OthersStaySoundAt(cfg, s, i);
    }
  }

  lemma OthersStaySoundAt(cfg: Config, s: State, i: nat)
    requires WellFormed(cfg, s) && WellFormed(cfg, SchedulerNext(cfg, s)) && i < cfg.Tenants()
    requires SoundAt(cfg, s, i) && !s.pc.Pay? && !s.pc.TakeBytes?
    ensures SoundAt(cfg, SchedulerNext(cfg, s), i)
  {
    var s' := SchedulerNext(cfg, s);
    assert s'.past.periods == s.past.periods && s'.past.charged == s.past.charged;
    if Checking(s.pc) {
      assert Checking(s'.pc) || s'.taken == [];
    } else {
      assert s'.seen == s.seen && s'.taken == s.taken;
    }
  }

  // ---------------------------------------------------------------- time

  /** Rollovers begun so far. */
  function Begun(s: State): nat {
    |s.past.periods| + (if Checking(s.pc) then 0 else 1)
  }

  /**
    The deadline of the next rollover: a period after initialisation for each rollover begun and
    one more, and never more than a period ahead.
   */
  predicate Paced(s: State) {
    s.past.since + (Begun(s) + 1) * SCHED_PERIOD_CYCLES <= s.next <= s.clock + SCHED_PERIOD_CYCLES
  }

  lemma SchedulerKeepsPace(cfg: Config, s: State)
    requires WellFormed(cfg, s) && Paced(s)
    ensures Paced(SchedulerNext(cfg, s))
  {
  }

  // ---------------------------------------------------------------- steps that leave the accounts alone

  /** Workers and the clock do not touch what the scheduler accounts for. */
  predicate SameAccounts(s: State, s': State) {
    && s'.flags == s.flags && s'.pc == s.pc && s'.tenants == s.tenants && s'.seen == s.seen && s'.taken == s.taken
    && s'.pools == s.pools && s'.past.periods == s.past.periods && s'.past.collected == s.past.collected
  }

  lemma SameAccountsKeepLinked(cfg: Config, s: State, s': State)
    requires WellFormed(cfg, s) && WellFormed(cfg, s') && SameAccounts(s, s')
    requires Linked(cfg, s) && Released(cfg, s)
    ensures Linked(cfg, s') && Released(cfg, s')
  {
  }

  lemma SameAccountsKeepCollected(cfg: Config, s: State, s': State)
    requires WellFormed(cfg, s) && WellFormed(cfg, s') && SameAccounts(s, s')
    requires Collected(cfg, s)
    ensures Collected(cfg, s')
  {
    forall i, r | 0 <= i < cfg.Tenants()
      ensures CollectedAt(cfg, s', i, r)
    {
      assert CollectedAt(cfg, s, i, r);
    }
  }

  lemma SameAccountsKeepSound(cfg: Config, s: State, s': State)
    requires WellFormed(cfg, s) && WellFormed(cfg, s') && SameAccounts(s, s')
    requires forall i :: 0 <= i < cfg.Tenants() && AllCounted(s', i) ==> AllCounted(s, i)
    requires Sound(cfg, s)
    ensures Sound(cfg, s')
  {
    assert Base(cfg, s') == Base(cfg, s);
    forall i | 0 <= i < cfg.Tenants()
      ensures SoundAt(cfg, s', i)
    {
      assert SoundAt(cfg, s, i);
    }
  }

  lemma SchedulerCollects(cfg: Config, s: State)
    requires WellFormed(cfg, s) && WellFormed(cfg, SchedulerNext(cfg, s)) && Collected(cfg, s)
    ensures Collected(cfg, SchedulerNext(cfg, s))
  {
    forall i, r | 0 <= i < cfg.Tenants()
      ensures CollectedAt(cfg, SchedulerNext(cfg, s), i, r)
    {
      assert CollectedAt(cfg, s, i, r);
      SchedulerCollectsAt(cfg, s, i, r);
    }
  }

  lemma SchedulerStaysSound(cfg: Config, s: State)
    requires WellFormed(cfg, s) && WellFormed(cfg, SchedulerNext(cfg, s))
    requires Sound(cfg, s) && Linked(cfg, s) && Earned(cfg, s)
    ensures Sound(cfg, SchedulerNext(cfg, s))
  {
    forall i | 0 <= i < cfg.Tenants()
      ensures SoundAt(cfg, SchedulerNext(cfg, s), i)
    {
      assert SoundAt(cfg, s, i);
      SchedulerStaysSoundAt(cfg, s, i);
    }
  }
}
