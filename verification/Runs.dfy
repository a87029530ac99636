/** Whole runs of the budget engine: ledger, isolation between tenants, and repayment of debt. */
module RunLaws {
  import opened Words
  import opened Budget
  import opened RolloverLaws

  lemma {:induction false} RunKeepsValid(mode: Mode, ts: seq<Tenant>, ps: seq<Period>)
    requires AllFit(|ts|, ps) && AllValid(ts)
    ensures AllValid(Run(mode, ts, ps))
    ensures forall i :: 0 <= i < |ts| ==> SameConfig(Run(mode, ts, ps)[i], ts[i])
    ensures ps != [] ==> forall i :: 0 <= i < |ts| ==>
              Run(mode, ts, ps)[i].cycle.budget == 0 || Run(mode, ts, ps)[i].debt == 0
  {
    if ps != [] {
      var n := |ps| - 1;
      RunKeepsValid(mode, ts, ps[..n]);
      RolloverKeepsValid(mode, Run(mode, ts, ps[..n]), ps[n]);
    }
  }

  // ---------------------------------------------------------------- the ledger of a run

  function TotalUsed(ps: seq<Period>): int {
    if ps == [] then 0 else TotalUsed(ps[..|ps| - 1]) + Sum(CycleUses(ps[|ps| - 1]))
  }

  function TotalDropped(mode: Mode, ts: seq<Tenant>, ps: seq<Period>): int
    requires AllFit(|ts|, ps)
  {
    if ps == [] then 0
    else
      var n := |ps| - 1;
      TotalDropped(mode, ts, ps[..n]) + Dropped(mode, Run(mode, ts, ps[..n]), ps[n])
  }

  function TotalLost(mode: Mode, ts: seq<Tenant>, ps: seq<Period>): int
    requires AllFit(|ts|, ps)
  {
    if ps == [] then 0
    else
      var n := |ps| - 1;
      TotalLost(mode, ts, ps[..n]) + Sum(Lost(Run(mode, ts, ps[..n]), ps[n]))
  }

  function CycleBudgets(ts: seq<Tenant>): (xs: seq<nat>)
    ensures |xs| == |ts|
  {
    seq(|ts|, i requires 0 <= i < |ts| => ts[i].cycle.budget)
  }

  function Debts(ts: seq<Tenant>): (xs: seq<nat>)
    ensures |xs| == |ts|
  {
    seq(|ts|, i requires 0 <= i < |ts| => ts[i].debt)
  }

  lemma NetsLedgerStep(mode: Mode, ts: seq<Tenant>, ps: seq<Period>)
    requires AllFit(|ts|, ps) && AllValid(ts) && ps != []
    ensures var front := ps[..|ps| - 1];
            && TotalUsed(ps) + TotalDropped(mode, ts, ps) + Sum(Nets(Run(mode, ts, ps))) - TotalLost(mode, ts, ps)
               == TotalUsed(front) + TotalDropped(mode, ts, front) + Sum(Nets(Run(mode, ts, front)))
                  - TotalLost(mode, ts, front) + Sum(CycleTargets(ts))
            && TotalDropped(mode, ts, ps) >= TotalDropped(mode, ts, front)
  {
    var n := |ps| - 1;
    var prev := Run(mode, ts, ps[..n]);
    RunKeepsValid(mode, ts, ps[..n]);
    RolloverLedger(mode, prev, ps[n]);
    assert CycleTargets(prev) == CycleTargets(ts);
  }

  lemma {:induction false} NetsLedger(mode: Mode, ts: seq<Tenant>, ps: seq<Period>)
    requires AllFit(|ts|, ps) && AllValid(ts)
    ensures TotalUsed(ps) + TotalDropped(mode, ts, ps) + Sum(Nets(Run(mode, ts, ps)))
            == Sum(Nets(ts)) + |ps| * Sum(CycleTargets(ts)) + TotalLost(mode, ts, ps)
    ensures TotalDropped(mode, ts, ps) >= 0
  {
    if ps != [] {
      NetsLedger(mode, ts, ps[..|ps| - 1]);
      NetsLedgerStep(mode, ts, ps);
      OneMore(|ps| - 1, Sum(CycleTargets(ts)));
    }
  }

  lemma NetsSum(ts: seq<Tenant>)
    ensures Sum(Nets(ts)) == Sum(CycleBudgets(ts)) - Sum(Debts(ts))
  {
    var zeros := seq(|ts|, i => 0);
    SumZero(zeros);
    SumBalance(Nets(ts), Debts(ts), CycleBudgets(ts), zeros);
  }

  /** Tenants start with their target and owe nothing. */
  lemma InitialNets(ts: seq<Tenant>)
    requires AllInitial(ts)
    ensures Nets(ts) == CycleTargets(ts)
  {
    forall i | 0 <= i < |ts|
      ensures Nets(ts)[i] == CycleTargets(ts)[i]
    {
      assert Initial(ts[i]);
    }
  }

  /**
    The whole-run ledger. `N` rollovers from initialisation pay out `N + 1` times the sum of
    the targets; all of it was used, dropped, or is still there as budget, and what was used
    beyond it is still there as debt unless a debt counter saturated.
   */
  lemma {:induction false} RunLedger(mode: Mode, ts: seq<Tenant>, ps: seq<Period>)
    requires AllFit(|ts|, ps) && AllInitial(ts)
    ensures TotalUsed(ps) + TotalDropped(mode, ts, ps) + Sum(CycleBudgets(Run(mode, ts, ps)))
            == (|ps| + 1) * Sum(CycleTargets(ts)) + Sum(Debts(Run(mode, ts, ps))) + TotalLost(mode, ts, ps)
    ensures TotalDropped(mode, ts, ps) >= 0
  {
    NetsLedger(mode, ts, ps);
    NetsSum(Run(mode, ts, ps));
    InitialNets(ts);
    OneMore(|ps|, Sum(CycleTargets(ts)));
  }

  /** What tenant `i` used of resource `r` in a run. */
  function UsedBy(ps: seq<Period>, i: nat, r: Resource): nat
    requires forall k :: 0 <= k < |ps| ==> i < |ps[k].uses|
  {
    if ps == [] then 0 else UsedBy(ps[..|ps| - 1], i, r) + ps[|ps| - 1].uses[i].Of(r)
  }

  /** No debt without use: a tenant never owes more than it used. */
  lemma {:induction false} DebtWithinUse(mode: Mode, ts: seq<Tenant>, ps: seq<Period>, i: nat)
    requires AllFit(|ts|, ps) && AllInitial(ts) && i < |ts|
    ensures Run(mode, ts, ps)[i].debt <= UsedBy(ps, i, Cycles)
  {
    if ps != [] {
      var n := |ps| - 1;
      DebtWithinUse(mode, ts, ps[..n], i);
      var prev := Run(mode, ts, ps[..n]);
      assert SettledAll(mode, prev, ps[n])[i] == Settled(mode, prev[i], ps[n].flags[i], ps[n].uses[i]);
      assert BeforeDebt(mode, prev, ps[n])[i].debt
             == RecordedDebt(prev[i].cycle.budget, ps[n].uses[i].cycles, prev[i].debt);
    }
  }

  /** Hence nothing is lost by saturation while no tenant has used 2^64 cycles. */
  lemma {:induction false} NothingLost(mode: Mode, ts: seq<Tenant>, ps: seq<Period>)
    requires AllFit(|ts|, ps) && AllInitial(ts)
    requires forall i :: 0 <= i < |ts| ==> UsedBy(ps, i, Cycles) <= MAX64
    ensures TotalLost(mode, ts, ps) == 0
  {
    if ps != [] {
      var n := |ps| - 1;
      forall i | 0 <= i < |ts|
        ensures UsedBy(ps[..n], i, Cycles) <= MAX64
      {
        assert UsedBy(ps, i, Cycles) == UsedBy(ps[..n], i, Cycles) + ps[n].uses[i].cycles;
      }
      NothingLost(mode, ts, ps[..n]);
      LastLosesNothing(mode, ts, ps);
    }
  }

  lemma LastLosesNothing(mode: Mode, ts: seq<Tenant>, ps: seq<Period>)
    requires AllFit(|ts|, ps) && AllInitial(ts) && ps != []
    requires forall i :: 0 <= i < |ts| ==> UsedBy(ps, i, Cycles) <= MAX64
    ensures Sum(Lost(Run(mode, ts, ps[..|ps| - 1]), ps[|ps| - 1])) == 0
  {
    var n := |ps| - 1;
    var prev := Run(mode, ts, ps[..n]);
    forall i | 0 <= i < |ts|
      ensures Lost(prev, ps[n])[i] == 0
    {
      DebtWithinUse(mode, ts, ps[..n], i);
      assert UsedBy(ps, i, Cycles) == UsedBy(ps[..n], i, Cycles) + ps[n].uses[i].cycles;
      ForgivenExactly(prev[i].cycle.budget, ps[n].uses[i].cycles, prev[i].debt);
    }
    SumZero(Lost(prev, ps[n]));
  }

  /** The ledger without loss: every cycle paid in was used, dropped or is still there. */
  lemma {:induction false} ExactLedger(mode: Mode, ts: seq<Tenant>, ps: seq<Period>)
    requires AllFit(|ts|, ps) && AllInitial(ts)
    requires forall i :: 0 <= i < |ts| ==> UsedBy(ps, i, Cycles) <= MAX64
    ensures TotalUsed(ps) + TotalDropped(mode, ts, ps) + Sum(CycleBudgets(Run(mode, ts, ps)))
            == (|ps| + 1) * Sum(CycleTargets(ts)) + Sum(Debts(Run(mode, ts, ps)))
    ensures TotalDropped(mode, ts, ps) >= 0
  {
    RunLedger(mode, ts, ps);
    NothingLost(mode, ts, ps);
  }

  /** What is dropped only adds up. */
  lemma {:induction false} DroppedGrows(mode: Mode, ts: seq<Tenant>, front: seq<Period>, ps: seq<Period>)
    requires AllFit(|ts|, front) && AllFit(|ts|, ps) && AllValid(ts) && front <= ps
    ensures TotalDropped(mode, ts, front) <= TotalDropped(mode, ts, ps)
  {
    if |front| < |ps| {
      DroppedGrows(mode, ts, front, ps[..|ps| - 1]);
      DroppedStep(mode, ts, ps);
    } else {
      assert front == ps;
    }
  }

  lemma {:induction false} DroppedStep(mode: Mode, ts: seq<Tenant>, ps: seq<Period>)
    requires AllFit(|ts|, ps) && AllValid(ts) && ps != []
    ensures TotalDropped(mode, ts, ps[..|ps| - 1]) <= TotalDropped(mode, ts, ps)
  {
    NetsLedgerStep(mode, ts, ps);
  }

  // ---------------------------------------------------------------- a ceiling for each tenant

  lemma CeilingStep(mode: Mode, ts: seq<Tenant>, p: Period, i: nat)
    requires Fits(ts, p) && AllValid(ts) && i < |ts| && ts[i].debt + p.uses[i].cycles <= MAX64
    ensures var t := Rollover(mode, ts, p)[i];
            p.uses[i].cycles + t.cycle.budget + ts[i].debt <= ts[i].cycle.cap + ts[i].cycle.budget + t.debt
  {
    RolloverKeepsValid(mode, ts, p);
    var before := BeforeDebt(mode, ts, p)[i];
    assert SettledAll(mode, ts, p)[i] == Settled(mode, ts[i], p.flags[i], p.uses[i]);
    assert before.debt == RecordedDebt(ts[i].cycle.budget, p.uses[i].cycles, ts[i].debt);
    assert before.Valid() && Rollover(mode, ts, p)[i] == Paid(before);
  }

  /** Whatever is shared with it, a tenant never uses more than its cap for each rollover and what it still owes. */
  lemma {:induction false} Ceiling(mode: Mode, ts: seq<Tenant>, ps: seq<Period>, i: nat)
    requires AllFit(|ts|, ps) && AllInitial(ts) && i < |ts| && UsedBy(ps, i, Cycles) <= MAX64
    ensures UsedBy(ps, i, Cycles) + Run(mode, ts, ps)[i].cycle.budget
            <= ts[i].cycle.target + |ps| * ts[i].cycle.cap + Run(mode, ts, ps)[i].debt
  {
    assert Initial(ts[i]);
    if ps != [] {
      var n := |ps| - 1;
      Ceiling(mode, ts, ps[..n], i);
      RunKeepsValid(mode, ts, ps[..n]);
      DebtWithinUse(mode, ts, ps[..n], i);
      CeilingStep(mode, Run(mode, ts, ps[..n]), ps[n], i);
      OneMore(n, ts[i].cycle.cap);
    }
  }

  // ---------------------------------------------------------------- isolation

  /** A token bucket of one's own: it fills at `rate`, holds `depth`, and overdraws into debt. */
  datatype TokenBucket = TokenBucket(rate: nat, depth: nat, level: nat, debt: nat)

  function Refilled(b: TokenBucket, used: nat, owes: bool): TokenBucket {
    var level := Min(b.depth, b.rate + Monus(b.level, used));
    var debt := if owes then Min(b.debt + Monus(used, b.level), MAX64) else 0;
    b.(level := Monus(level, debt), debt := Monus(debt, level))
  }

  /** The private bucket for resource `r` of tenant `i` after the tenant's own use of each period. */
  function PrivateRun(b: TokenBucket, ps: seq<Period>, i: nat, r: Resource): TokenBucket
    requires forall k :: 0 <= k < |ps| ==> i < |ps[k].uses|
  {
    if ps == [] then b
    else Refilled(PrivateRun(b, ps[..|ps| - 1], i, r), ps[|ps| - 1].uses[i].Of(r), r == Cycles)
  }

  function OwnBucket(t: Tenant, r: Resource): TokenBucket {
    TokenBucket(t.Of(r).target, t.Of(r).cap, t.Of(r).budget, if r == Cycles then t.debt else 0)
  }

  /** Tenant `i` is restricted only for resources it has used up; needed in mode `DRF` alone. */
  ghost predicate SoundRun(mode: Mode, ts: seq<Tenant>, ps: seq<Period>, i: nat)
    requires AllFit(|ts|, ps) && i < |ts|
  {
    ps == [] || mode != Drf ||
    var n := |ps| - 1;
    SoundRun(mode, ts, ps[..n], i) && SoundFlag(Run(mode, ts, ps[..n])[i], ps[n].flags[i], ps[n].uses[i])
  }

  /** The budget of tenant `i` before debt is paid, seen from its own account only. */
  lemma AtLeastSettled(mode: Mode, ts: seq<Tenant>, p: Period, r: Resource, i: nat)
    requires mode != Off && Fits(ts, p) && i < |ts| && ts[i].Valid()
    requires mode == Drf ==> SoundFlag(ts[i], p.flags[i], p.uses[i])
    ensures var a := ts[i].Of(r);
            BeforeDebt(mode, ts, p)[i].Of(r).budget >= Min(a.cap, a.target + Monus(a.budget, p.uses[i].Of(r)))
    ensures BeforeDebt(mode, ts, p)[i].debt == RecordedDebt(ts[i].cycle.budget, p.uses[i].cycles, ts[i].debt)
  {
    assert SettledAll(mode, ts, p)[i] == Settled(mode, ts[i], p.flags[i], p.uses[i]);
    var mid, pools := SettledAll(mode, ts, p), Pooled(mode, ts, p);
    assert BeforeDebt(mode, ts, p)[i]
           == Granted(mid[i], Grant(mode, mid, p.flags, pools, Cycles, i), Grant(mode, mid, p.flags, pools, Bytes, i));
  }

  /** The tenant has at least what the private bucket `own` for resource `r` holds. */
  predicate Covers(t: Tenant, own: TokenBucket, r: Resource) {
    && own.rate == t.Of(r).target && own.depth == t.Of(r).cap
    && t.Of(r).budget >= own.level
    && (r == Cycles ==> t.debt <= own.debt) && (r == Bytes ==> own.debt == 0)
  }

  lemma CoversStep(mode: Mode, ts: seq<Tenant>, p: Period, r: Resource, i: nat, own: TokenBucket)
    requires mode != Off && Fits(ts, p) && AllValid(ts) && i < |ts|
    requires mode == Drf ==> SoundFlag(ts[i], p.flags[i], p.uses[i])
    requires Covers(ts[i], own, r)
    ensures Covers(Rollover(mode, ts, p)[i], Refilled(own, p.uses[i].Of(r), r == Cycles), r)
  {
    RolloverKeepsValid(mode, ts, p);
    AtLeastSettled(mode, ts, p, r, i);
    var before := BeforeDebt(mode, ts, p)[i];
    assert Rollover(mode, ts, p)[i] == Paid(before);
    PayingCovers(before, ts[i], p.uses[i], own, r);
  }

  /** Paying a smaller debt out of a larger budget leaves more of the one and less of the other. */
  lemma PayingCovers(before: Tenant, was: Tenant, u: Use, own: TokenBucket, r: Resource)
    requires Covers(was, own, r) && SameConfig(Paid(before), was)
    requires before.Of(r).budget >= Min(was.Of(r).cap, was.Of(r).target + Monus(was.Of(r).budget, u.Of(r)))
    requires before.debt == RecordedDebt(was.cycle.budget, u.cycles, was.debt)
    ensures Covers(Paid(before), Refilled(own, u.Of(r), r == Cycles), r)
  {
  }

  /**
    Isolation. Whatever the other tenants do, in modes `BUCKET` and `DRF` a tenant has at least
    the budget, and at most the debt, of a private token bucket fed with its own use.
   */
  lemma {:induction false} Isolated(mode: Mode, ts: seq<Tenant>, ps: seq<Period>, r: Resource, i: nat)
    requires mode != Off && AllFit(|ts|, ps) && AllValid(ts) && i < |ts|
    requires SoundRun(mode, ts, ps, i)
    ensures Covers(Run(mode, ts, ps)[i], PrivateRun(OwnBucket(ts[i], r), ps, i, r), r)
  {
    if ps != [] {
      var n := |ps| - 1;
      Isolated(mode, ts, ps[..n], r, i);
      RunKeepsValid(mode, ts, ps[..n]);
      CoversStep(mode, Run(mode, ts, ps[..n]), ps[n], r, i, PrivateRun(OwnBucket(ts[i], r), ps[..n], i, r));
    }
  }

  predicate NoWorse(shared: Tenant, alone: Tenant) {
    && SameConfig(shared, alone)
    && shared.cycle.budget >= alone.cycle.budget
    && shared.bw.budget >= alone.bw.budget
    && shared.debt <= alone.debt
  }

  /**
    Two runs, one with sharing and one without, in which a tenant uses the same: sharing never
    leaves it with less budget or more debt, whatever the others do in either run.
   */
  lemma {:induction false} SharingBeatsOff(mode: Mode, ts: seq<Tenant>, ps: seq<Period>, i: nat,
                                           ts': seq<Tenant>, ps': seq<Period>, i': nat)
    requires mode != Off && AllFit(|ts|, ps) && AllValid(ts) && i < |ts|
    requires AllFit(|ts'|, ps') && i' < |ts'|
    requires SoundRun(mode, ts, ps, i)
    requires ts[i] == ts'[i'] && |ps| == |ps'|
    requires forall k :: 0 <= k < |ps| ==> ps[k].uses[i] == ps'[k].uses[i']
    ensures NoWorse(Run(mode, ts, ps)[i], Run(Off, ts', ps')[i'])
  {
    if ps != [] {
      var n := |ps| - 1;
      SharingBeatsOff(mode, ts, ps[..n], i, ts', ps'[..n], i');
      RunKeepsValid(mode, ts, ps[..n]);
      AloneStep(Run(Off, ts', ps'[..n]), ps'[n], i');
      NoWorseStep(mode, Run(mode, ts, ps[..n]), ps[n], i, Run(Off, ts', ps'[..n])[i']);
    }
  }

  /** What mode `OFF` makes of a single tenant: back to the targets, then debt is paid. */
  function Reset(t: Tenant, used: nat): Tenant {
    Paid(Tenant(t.cycle.(budget := t.cycle.target), t.bw.(budget := t.bw.target),
                RecordedDebt(t.cycle.budget, used, t.debt)))
  }

  lemma NoWorseStep(mode: Mode, ts: seq<Tenant>, p: Period, i: nat, alone: Tenant)
    requires mode != Off && Fits(ts, p) && AllValid(ts) && i < |ts|
    requires mode == Drf ==> SoundFlag(ts[i], p.flags[i], p.uses[i])
    requires NoWorse(ts[i], alone)
    ensures NoWorse(Rollover(mode, ts, p)[i], Reset(alone, p.uses[i].cycles))
  {
    RolloverKeepsValid(mode, ts, p);
    AtLeastSettled(mode, ts, p, Cycles, i);
    AtLeastSettled(mode, ts, p, Bytes, i);
    assert Rollover(mode, ts, p)[i] == Paid(BeforeDebt(mode, ts, p)[i]);
  }

  lemma AloneStep(ts: seq<Tenant>, p: Period, i: nat)
    requires Fits(ts, p) && i < |ts|
    ensures Rollover(Off, ts, p)[i] == Reset(ts[i], p.uses[i].cycles)
  {
    var mid, pools := SettledAll(Off, ts, p), Pooled(Off, ts, p);
    assert mid[i] == Settled(Off, ts[i], p.flags[i], p.uses[i]);
    assert Grant(Off, mid, p.flags, pools, Cycles, i) == 0 == Grant(Off, mid, p.flags, pools, Bytes, i);
    assert BeforeDebt(Off, ts, p)[i] == Granted(mid[i], 0, 0);
    assert Rollover(Off, ts, p)[i] == Paid(mid[i]);
  }

  // ---------------------------------------------------------------- repayment

  /** One rollover lowers a debt by the target, less any new overshoot. */
  lemma DebtStep(mode: Mode, ts: seq<Tenant>, p: Period, i: nat)
    requires Fits(ts, p) && i < |ts| && ts[i].Valid()
    ensures Rollover(mode, ts, p)[i].debt
            <= Monus(ts[i].debt + Monus(p.uses[i].cycles, ts[i].cycle.budget), ts[i].cycle.target)
  {
    TargetReached(mode, ts, p, Cycles, i);
    assert SettledAll(mode, ts, p)[i] == Settled(mode, ts[i], p.flags[i], p.uses[i]);
    assert BeforeDebt(mode, ts, p)[i].debt == RecordedDebt(ts[i].cycle.budget, p.uses[i].cycles, ts[i].debt);
  }

  /** Overshoot of at most the target never raises a debt. */
  lemma ModestOvershoot(mode: Mode, ts: seq<Tenant>, p: Period, i: nat)
    requires Fits(ts, p) && i < |ts| && ts[i].Valid()
    requires p.uses[i].cycles <= ts[i].cycle.budget + ts[i].cycle.target
    ensures Rollover(mode, ts, p)[i].debt <= ts[i].debt
  {
    DebtStep(mode, ts, p, i);
  }

  /** The uses of tenant `i` never exceed the budget that it has at the time. */
  ghost predicate StaysWithinBudget(mode: Mode, ts: seq<Tenant>, ps: seq<Period>, i: nat)
    requires AllFit(|ts|, ps) && i < |ts|
  {
    ps == [] ||
    var n := |ps| - 1;
    StaysWithinBudget(mode, ts, ps[..n], i) && ps[n].uses[i].cycles <= Run(mode, ts, ps[..n])[i].cycle.budget
  }

  lemma RepaymentStep(mode: Mode, ts: seq<Tenant>, prev: seq<Tenant>, p: Period, i: nat)
    requires Fits(prev, p) && i < |prev| == |ts| && AllValid(prev) && SameConfig(prev[i], ts[i])
    requires p.uses[i].cycles <= prev[i].cycle.budget
    ensures Rollover(mode, prev, p)[i].debt <= Monus(prev[i].debt, ts[i].cycle.target)
  {
    DebtStep(mode, prev, p, i);
  }

  /** Periods without overshoot pay a debt off at the rate of the target: `ceil(debt / target)` are enough. */
  lemma {:induction false} DebtIsRepaid(mode: Mode, ts: seq<Tenant>, ps: seq<Period>, i: nat)
    requires AllFit(|ts|, ps) && AllValid(ts) && i < |ts|
    requires StaysWithinBudget(mode, ts, ps, i)
    ensures Run(mode, ts, ps)[i].debt <= Monus(ts[i].debt, |ps| * ts[i].cycle.target)
    ensures |ps| * ts[i].cycle.target >= ts[i].debt ==> Run(mode, ts, ps)[i].debt == 0
  {
    if ps != [] {
      var n := |ps| - 1;
      DebtIsRepaid(mode, ts, ps[..n], i);
      RunKeepsValid(mode, ts, ps[..n]);
      RepaymentStep(mode, ts, Run(mode, ts, ps[..n]), ps[n], i);
      OneMore(n, ts[i].cycle.target);
    }
  }

  /** A tenant still in debt after a rollover is restricted by the next check, whatever it has used. */
  lemma DebtorIsHeldBack(mode: Mode, ts: seq<Tenant>, p: Period, i: nat, soFar: Use)
    requires Fits(ts, p) && AllValid(ts) && i < |ts|
    requires Rollover(mode, ts, p)[i].debt > 0
    ensures CheckedFlag(Rollover(mode, ts, p)[i], soFar).Bound?
  {
    RolloverKeepsValid(mode, ts, p);
  }
}
