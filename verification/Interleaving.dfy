/** What holds in every interleaving of `Protocol.dfy`. */
module Interleaving {
  import opened Words
  import opened Budget
  import opened Apportion
  import opened RolloverLaws
  import opened RunLaws
  import opened Protocol

  // ---------------------------------------------------------------- charges are conserved

  function Live(s: State, i: nat, r: Resource): u64
    requires i < |s.cycles| && i < |s.bytes|
  {
    match r case Cycles => s.cycles[i] case Bytes => s.bytes[i]
  }

  /** Everything charged was collected or is still in the counter, up to whole turns of the counter. */
  predicate Balanced(charged: nat, collected: nat, live: nat) {
    collected + live <= charged && (charged - collected - live) % 0x1_0000_0000_0000_0000 == 0
  }

  ghost predicate Conserved(cfg: Config, s: State)
    requires WellFormed(cfg, s)
  {
    forall i :: 0 <= i < cfg.Tenants() ==>
      && Balanced(s.past.charged[i].cycles, s.past.collected[i].cycles, s.cycles[i])
      && Balanced(s.past.charged[i].bytes, s.past.collected[i].bytes, s.bytes[i])
  }

  lemma BalancedAfterAdd(charged: nat, collected: nat, live: u64, d: nat)
    requires Balanced(charged, collected, live)
    ensures Balanced(charged + d, collected, Wrap64(live + d))
    ensures charged + d <= MAX64 ==> Wrap64(live + d) == live + d
  {
  }

  /** With less than 2^64 charged the balance is exact. */
  lemma BalancedExactly(charged: nat, collected: nat, live: nat)
    requires Balanced(charged, collected, live) && charged <= MAX64
    ensures charged == collected + live
  {
  }

  lemma WorkerConserves(cfg: Config, s: State, a: Action)
    requires WellFormed(cfg, s) && Enabled(cfg, s, a) && a.WorkerStep? && WellFormed(cfg, WorkerNext(cfg, s, a))
    requires Conserved(cfg, s)
    ensures Conserved(cfg, WorkerNext(cfg, s, a))
  {
    match s.workers[a.w].at
    case AddCycles(q, _, cycles, _) =>
      BalancedAfterAdd(s.past.charged[q].cycles, s.past.collected[q].cycles, s.cycles[q], cycles);
    case AddBytes(q, _, bytes) =>
      BalancedAfterAdd(s.past.charged[q].bytes, s.past.collected[q].bytes, s.bytes[q], bytes);
    case _ =>
  }

  lemma SchedulerConserves(cfg: Config, s: State)
    requires WellFormed(cfg, s) && WellFormed(cfg, SchedulerNext(cfg, s))
    requires Conserved(cfg, s)
    ensures Conserved(cfg, SchedulerNext(cfg, s))
  {
    var s' := SchedulerNext(cfg, s);
    assert s'.past.charged == s.past.charged;
    if !s.pc.TakeCycles? && !s.pc.TakeBytes? {
      assert s'.past.collected == s.past.collected && s'.cycles == s.cycles && s'.bytes == s.bytes;
    }
  }

  // ---------------------------------------------------------------- restrictions are earned

  /** Less than 2^64 of resource `r` was ever charged to tenant `i`. */
  predicate Counted(s: State, i: nat, r: Resource)
    requires i < |s.past.charged|
  {
    s.past.charged[i].Of(r) <= MAX64
  }

  /** In the current period the counter of tenant `i` for `r` has not been taken yet. */
  predicate Pending(s: State, i: nat, r: Resource) {
    match s.pc
    case TakeCycles(t) => i >= t
    case TakeBytes(t, _) => i > t || (i == t && r == Bytes)
    case Release(t) => i > t
    case Clear(_) => false
    case Pay => false
    case _ => true
  }

  /** The tenants whose restriction the current rollover has lifted. */
  ghost predicate Released(cfg: Config, s: State)
    requires WellFormed(cfg, s)
  {
    match s.pc
    case TakeCycles(t) => cfg.mode == Off ==> AllFree(s.flags, t)
    case TakeBytes(t, _) => cfg.mode == Off ==> AllFree(s.flags, t)
    case Release(t) => AllFree(s.flags, t)
    case Clear(t) => AllFree(s.flags, t)
    case Pay => AllFree(s.flags, cfg.Tenants())
    case _ => true
  }

  ghost predicate AllFree(flags: seq<Restriction>, k: nat)
    requires k <= |flags|
  {
    forall i :: 0 <= i < k ==> flags[i] == Free
  }

  lemma SchedulerReleases(cfg: Config, s: State)
    requires WellFormed(cfg, s) && WellFormed(cfg, SchedulerNext(cfg, s))
    requires Released(cfg, s)
    ensures Released(cfg, SchedulerNext(cfg, s))
  {
  }

  /** A restricted tenant has used up the resource it is restricted for, until it is collected. */
  predicate EarnedAt(cfg: Config, s: State, i: nat, r: Resource)
    requires |s.flags| == |s.cycles| == |s.bytes| == |s.tenants| == |s.past.charged| && i < |s.flags|
  {
    s.flags[i] == Bound(r) && Counted(s, i, r) && Pending(s, i, r) ==> Live(s, i, r) >= s.tenants[i].Of(r).budget
  }

  /** The same for what the scheduler has read and not yet acted upon. */
  predicate EarnedInHand(cfg: Config, s: State)
    requires |s.flags| == |s.cycles| == |s.bytes| == |s.tenants| == |s.past.charged| == cfg.Tenants()
    requires ControlInRange(cfg, s)
  {
    match s.pc
    case CheckBytes(t, c) => Counted(s, t, Cycles) ==> c <= s.cycles[t]
    case SetFlag(t, r) => Counted(s, t, r) ==> Live(s, t, r) >= s.tenants[t].Of(r).budget
    case TakeBytes(t, c) => s.flags[t] == Bound(Cycles) && Counted(s, t, Cycles) ==> c >= s.tenants[t].cycle.budget
    case _ => true
  }

  ghost predicate Earned(cfg: Config, s: State)
    requires WellFormed(cfg, s)
  {
    EarnedInHand(cfg, s) && forall i, r :: 0 <= i < cfg.Tenants() ==> EarnedAt(cfg, s, i, r)
  }

  /** A charge only raises a counter, as long as the counter has not turned over. */
  lemma LiveGrows(cfg: Config, s: State, a: Action, i: nat, r: Resource)
    requires WellFormed(cfg, s) && Enabled(cfg, s, a) && a.WorkerStep? && i < cfg.Tenants()
    requires Conserved(cfg, s)
    ensures var s' := WorkerNext(cfg, s, a);
            Counted(s', i, r) ==> Counted(s, i, r) && Live(s', i, r) >= Live(s, i, r)
  {
    match s.workers[a.w].at
    case AddCycles(q, _, cycles, _) =>
      BalancedAfterAdd(s.past.charged[q].cycles, s.past.collected[q].cycles, s.cycles[q], cycles);
    case AddBytes(q, _, bytes) =>
      BalancedAfterAdd(s.past.charged[q].bytes, s.past.collected[q].bytes, s.bytes[q], bytes);
    case _ =>
  }

  lemma WorkerKeepsPrivate(cfg: Config, s: State, a: Action)
    requires WellFormed(cfg, s) && Enabled(cfg, s, a) && a.WorkerStep?
    ensures var s' := WorkerNext(cfg, s, a);
            && s'.flags == s.flags && s'.pc == s.pc && s'.tenants == s.tenants
            && s'.seen == s.seen && s'.taken == s.taken
            && s'.pools == s.pools && s'.next == s.next && s'.clock == s.clock
            && s'.past.periods == s.past.periods && s'.past.collected == s.past.collected
            && s'.past.since == s.past.since
  {
  }

  lemma WorkerKeepsEarned(cfg: Config, s: State, a: Action)
    requires WellFormed(cfg, s) && Enabled(cfg, s, a) && a.WorkerStep? && WellFormed(cfg, WorkerNext(cfg, s, a))
    requires Conserved(cfg, s) && Earned(cfg, s)
    ensures Earned(cfg, WorkerNext(cfg, s, a))
  {
    var s' := WorkerNext(cfg, s, a);
    WorkerKeepsPrivate(cfg, s, a);
    forall i, r | 0 <= i < cfg.Tenants()
      ensures EarnedAt(cfg, s', i, r) && (Counted(s', i, r) ==> Counted(s, i, r) && Live(s', i, r) >= Live(s, i, r))
    {
      LiveGrows(cfg, s, a, i, r);
      assert EarnedAt(cfg, s, i, r);
    }
  }

  lemma SchedulerKeepsEarnedAt(cfg: Config, s: State, i: nat, r: Resource)
    requires WellFormed(cfg, s) && WellFormed(cfg, SchedulerNext(cfg, s)) && i < cfg.Tenants()
    requires Earned(cfg, s) && Released(cfg, s)
    ensures EarnedAt(cfg, SchedulerNext(cfg, s), i, r)
  {
    assert EarnedAt(cfg, s, i, r);
  }

  lemma SchedulerKeepsEarned(cfg: Config, s: State)
    requires WellFormed(cfg, s) && WellFormed(cfg, SchedulerNext(cfg, s))
    requires Earned(cfg, s) && Released(cfg, s)
    ensures Earned(cfg, SchedulerNext(cfg, s))
  {
    var s' := SchedulerNext(cfg, s);
    forall i, r | 0 <= i < cfg.Tenants()
      ensures EarnedAt(cfg, s', i, r)
    {
      SchedulerKeepsEarnedAt(cfg, s, i, r);
    }
    assert EarnedInHand(cfg, s') by {
      if s.pc.TakeCycles? && s.pc.t < cfg.Tenants() {
        assert EarnedAt(cfg, s, s.pc.t, Cycles);
      }
    }
  }
}
