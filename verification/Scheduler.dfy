/**
  The budget state of `struct dpa_sche_context` and the loops over it, on 64-bit words with
  wrap-around written out. Every method is tied to the specification in `Budget.dfy`.
  No worker interferes here: `Protocol.dfy` interleaves the same steps with workers.
 */
module Scheduler {
  import opened Words
  import opened Budget
  import RolloverLaws
  import DrfSharing
  import opened Apportion

  class SchedulerContext {
    const tenants: nat
    const cycleTarget: array<u64>
    const cycleCap: array<u64>
    const cycleBudget: array<u64>
    const cycleConsumed: array<u64>
    const cycleDebt: array<u64>
    const bwTarget: array<u64>
    const bwCap: array<u64>
    const bwBudget: array<u64>
    const bwConsumed: array<u64>
    const restrict: array<Restriction>

    /** Separate arrays, one element for each tenant. */
    ghost predicate Valid() {
      && cycleTarget.Length == cycleCap.Length == cycleBudget.Length == tenants
      && cycleConsumed.Length == cycleDebt.Length == tenants
      && bwTarget.Length == bwCap.Length == bwBudget.Length == bwConsumed.Length == restrict.Length == tenants
      && cycleBudget !in {cycleTarget, cycleCap, bwTarget, bwCap}
      && bwBudget !in {cycleTarget, cycleCap, bwTarget, bwCap, cycleBudget}
      && cycleDebt !in {cycleTarget, cycleCap, bwTarget, bwCap, cycleBudget, bwBudget}
      && cycleConsumed !in {cycleTarget, cycleCap, bwTarget, bwCap, cycleBudget, bwBudget, cycleDebt}
      && bwConsumed !in {cycleTarget, cycleCap, bwTarget, bwCap, cycleBudget, bwBudget, cycleDebt, cycleConsumed}
      && cycleTarget !in {cycleCap, bwTarget, bwCap} && cycleCap !in {bwTarget, bwCap} && bwTarget != bwCap
    }

    ghost function Footprint(): set<object> {
      {cycleTarget, cycleCap, cycleBudget, cycleConsumed, cycleDebt, bwTarget, bwCap, bwBudget, bwConsumed, restrict}
    }

    ghost function TenantAt(i: nat): Tenant
      requires Valid() && i < tenants
      reads Footprint()
    {
      Tenant(Account(cycleTarget[i], cycleCap[i], cycleBudget[i]),
             Account(bwTarget[i], bwCap[i], bwBudget[i]),
             cycleDebt[i])
    }

    ghost function UseAt(i: nat): Use
      requires Valid() && i < tenants
      reads Footprint()
    {
      Use(cycleConsumed[i], bwConsumed[i])
    }

    ghost function Tenants(): (ts: seq<Tenant>)
      requires Valid()
      reads Footprint()
      ensures |ts| == tenants
    {
      seq(tenants, i requires 0 <= i < tenants reads Footprint() => TenantAt(i))
    }

    ghost function Uses(): (us: seq<Use>)
      requires Valid()
      reads Footprint()
      ensures |us| == tenants
    {
      seq(tenants, i requires 0 <= i < tenants reads Footprint() => UseAt(i))
    }

    /** The period that a rollover would close now. */
    ghost function Now(): (p: Period)
      requires Valid()
      reads Footprint()
      ensures |p.flags| == |p.uses| == tenants
    {
      Period(restrict[..], Uses())
    }

    // -------------------------------------------------------------- initialisation

    /** Room for `n` tenants; `InitAccounting` fills it. */
    constructor (n: nat)
      ensures Valid() && tenants == n && fresh(Footprint())
    {
      tenants := n;
      cycleTarget, cycleCap, cycleBudget := new u64[n], new u64[n], new u64[n];
      cycleConsumed, cycleDebt := new u64[n], new u64[n];
      bwTarget, bwCap, bwBudget, bwConsumed := new u64[n], new u64[n], new u64[n], new u64[n];
      restrict := new Restriction[n];
    }

    /**
      `sch_init_cycle_accounting`. The weight tables have one entry for each possible tenant;
      further tenants are not served.
     */
    method InitCycleAccounting(tenantsNum: nat, weights: seq<u32>, threads: nat, hostMemory: bool)
      requires Valid() && tenants == Min(tenantsNum, |weights|) && threads <= MAX_THREADS
      requires 0 < Sum(weights[..tenants]) < 0x1_0000_0000
      modifies cycleTarget, cycleCap, cycleBudget, cycleConsumed, cycleDebt, restrict
      ensures forall i :: 0 <= i < tenants ==>
                && TenantAt(i).cycle == Opened(Shares(BaseCycles(threads, hostMemory), weights[..tenants])[i])
                && TenantAt(i).debt == 0 && cycleConsumed[i] == 0 && restrict[i] == Free
    {
      BaseCyclesBound(threads, hostMemory);
      InitAccounts(cycleTarget, cycleCap, cycleBudget, cycleConsumed,
                   BaseCycles(threads, hostMemory), weights[..tenants]);
      ClearDebts();
    }

    method ClearDebts()
      requires Valid()
      modifies cycleDebt, restrict
      ensures forall i :: 0 <= i < tenants ==> cycleDebt[i] == 0 && restrict[i] == Free
    {
      for t := 0 to tenants
        invariant forall i :: 0 <= i < t ==> cycleDebt[i] == 0 && restrict[i] == Free
      {
        cycleDebt[t] := 0;
        restrict[t] := Free;
      }
    }

    /** `sch_init_bandwidth_accounting`. */
    method InitBandwidthAccounting(tenantsNum: nat, weights: seq<u32>, schedulers: nat)
      requires Valid() && tenants == Min(tenantsNum, |weights|)
      requires 0 < Sum(weights[..tenants]) < 0x1_0000_0000
      modifies bwTarget, bwCap, bwBudget, bwConsumed
      ensures forall i :: 0 <= i < tenants ==>
                && TenantAt(i).bw == Opened(Shares(BaseBytes(schedulers), weights[..tenants])[i])
                && TenantAt(i).cycle == old(TenantAt(i).cycle) && TenantAt(i).debt == old(TenantAt(i).debt)
                && bwConsumed[i] == 0 && cycleConsumed[i] == old(cycleConsumed[i])
    {
      BaseBytesBound(schedulers);
      InitAccounts(bwTarget, bwCap, bwBudget, bwConsumed, BaseBytes(schedulers), weights[..tenants]);
    }

    /** The accounting part of `sch_ctx_init`. */
    method InitAccounting(tenantsNum: nat, cycleWeights: seq<u32>, bwWeights: seq<u32>,
                          threads: nat, hostMemory: bool, schedulers: nat)
      requires Valid() && tenants == Min(tenantsNum, |cycleWeights|)
      requires |cycleWeights| == |bwWeights| && threads <= MAX_THREADS
      requires 0 < Sum(cycleWeights[..tenants]) < 0x1_0000_0000
      requires 0 < Sum(bwWeights[..tenants]) < 0x1_0000_0000
      modifies Footprint()
      ensures Tenants() == InitialTenants(BaseCycles(threads, hostMemory), cycleWeights[..tenants],
                                          BaseBytes(schedulers), bwWeights[..tenants])
      ensures Now() == Fresh(tenants)
      ensures AllInitial(Tenants()) && CapsFit(DRF_LIMIT) && CapsFit(MAX64)
    {
      InitCycleAccounting(tenantsNum, cycleWeights, threads, hostMemory);
      InitBandwidthAccounting(tenantsNum, bwWeights, schedulers);
      ghost var cycleBase, bwBase := BaseCycles(threads, hostMemory), BaseBytes(schedulers);
      ghost var cw, bw := cycleWeights[..tenants], bwWeights[..tenants];
      InitialTenantsFit(cycleBase, cw, bwBase, bw);
      InitialCapsFit(threads, hostMemory, cw, schedulers, bw);
      assert Tenants() == InitialTenants(cycleBase, cw, bwBase, bw);
      assert Now() == Fresh(tenants);
    }

    /** Splits a base budget by weight; the weight sum is a 32-bit word. */
    static method InitAccounts(target: array<u64>, cap: array<u64>, budget: array<u64>, consumed: array<u64>,
                               base: u64, weights: seq<u32>)
      requires target.Length == cap.Length == budget.Length == consumed.Length == |weights|
      requires cap != target && budget !in {target, cap} && consumed !in {target, cap, budget}
      requires 0 < Sum(weights) < 0x1_0000_0000 && base < 0x1_0000_0000
      modifies target, cap, budget, consumed
      ensures forall i :: 0 <= i < |weights| ==>
                && target[i] == budget[i] == Shares(base, weights)[i]
                && cap[i] == 2 * Shares(base, weights)[i] && consumed[i] == 0
    {
      var total := SumWeights(weights);
      ghost var shares := Shares(base, weights);
      for t := 0 to |weights|
        invariant forall i :: 0 <= i < t ==>
                    target[i] == budget[i] == shares[i] && cap[i] == 2 * shares[i] && consumed[i] == 0
      {
        QuotaFits(base, weights, t);
        var quota := Quota(base, weights[t], total);
        target[t] := quota;
        budget[t] := quota;
        cap[t] := BudgetCap(quota);
        consumed[t] := 0;
      }
    }

    static method SumWeights(weights: seq<u32>) returns (sum: u32)
      requires Sum(weights) < 0x1_0000_0000
      ensures sum == Sum(weights)
    {
      ghost var sums := PrefixSums(weights);
      sum := 0;
      for t := 0 to |weights|
        invariant sum == sums[t]
      {
        assert sums[t + 1] == sums[t] + weights[t];
        sum := Wrap32(sum + weights[t]);
      }
    }

    // -------------------------------------------------------------- single accounts

    /** `sch_cycle_record_debt`: the wrap test amounts to saturating addition, for all words. */
    method RecordDebt(budget: u64, used: u64, debts: array<u64>, t: nat)
      requires t < debts.Length
      modifies debts
      ensures debts[..] == old(debts[..])[t := RecordedDebt(budget, used, old(debts[t]))]
    {
      if used <= budget {
        return;
      }
      var debtNow := debts[t];
      var debtNext := Wrap64(debtNow + (used - budget));
      if debtNext < debtNow {
        debtNext := MAX64;
      }
      debts[t] := debtNext;
    }

    /** `sch_cycle_apply_debt`. */
    method PayDebt(t: nat)
      requires Valid() && t < tenants
      modifies cycleBudget, cycleDebt
      ensures TenantAt(t) == Paid(old(TenantAt(t)))
      ensures forall i :: 0 <= i < tenants && i != t ==> TenantAt(i) == old(TenantAt(i))
    {
      var debtNow := cycleDebt[t];
      if debtNow == 0 {
        return;
      }
      var budgetNow := cycleBudget[t];
      var paid := if budgetNow < debtNow then budgetNow else debtNow;
      cycleBudget[t] := budgetNow - paid;
      cycleDebt[t] := debtNow - paid;
    }

    /** `sch_apply_cycle_debt`. */
    method PayDebts()
      requires Valid()
      modifies cycleBudget, cycleDebt
      ensures Tenants() == PaidAll(old(Tenants()))
      ensures Now() == old(Now())
    {
      ghost var was := Tenants();
      for t := 0 to tenants
        invariant forall i :: 0 <= i < t ==> TenantAt(i) == Paid(was[i])
        invariant forall i :: t <= i < tenants ==> TenantAt(i) == was[i]
      {
        PayDebt(t);
      }
      assert Uses() == old(Uses()) && restrict[..] == old(restrict[..]);
    }

    /** `sch_budget_settle`. */
    method Settle(quota: u64, cap: u64, used: u64, budgets: array<u64>, t: nat) returns (spill: u64)
      requires t < budgets.Length && quota <= cap
      modifies budgets
      ensures budgets[..] == old(budgets[..])[t := Min(cap, quota + Monus(old(budgets[t]), used))]
      ensures spill == Monus(quota + Monus(old(budgets[t]), used), cap)
    {
      var carried := if budgets[t] > used then budgets[t] - used else 0;
      var headroom := Wrap64(cap - quota);
      if carried > headroom {
        budgets[t] := cap;
        return carried - headroom;
      }
      budgets[t] := Wrap64(quota + carried);
      return 0;
    }

    /** `sch_budget_receive`. */
    method Receive(budgets: array<u64>, t: nat, cap: u64, pool: u64) returns (left: u64)
      requires t < budgets.Length
      modifies budgets
      ensures budgets[..] == old(budgets[..])[t := old(budgets[t]) + Min(Monus(cap, old(budgets[t])), pool)]
      ensures left == Monus(pool, Monus(cap, old(budgets[t])))
    {
      if pool == 0 || budgets[t] >= cap {
        return pool;
      }
      var borrow := cap - budgets[t];
      if borrow > pool {
        borrow := pool;
      }
      budgets[t] := Wrap64(budgets[t] + borrow);
      return pool - borrow;
    }

    /** `sch_budget_reclaim_over_target`. */
    method ReclaimOverTarget(budgets: array<u64>, t: nat, target: u64) returns (excess: u64)
      requires t < budgets.Length
      modifies budgets
      ensures budgets[..] == old(budgets[..])[t := Min(target, old(budgets[t]))]
      ensures excess == Monus(old(budgets[t]), target)
    {
      if budgets[t] <= target {
        return 0;
      }
      excess := budgets[t] - target;
      budgets[t] := target;
    }

    // -------------------------------------------------------------- the budget check

    /** `sch_check_budget`: flags, once and for the period, every tenant that has used up a budget. */
    method CheckBudget()
      requires Valid()
      modifies restrict
      ensures forall i :: 0 <= i < tenants && old(restrict[i]).Bound? ==> restrict[i] == old(restrict[i])
      ensures forall i :: 0 <= i < tenants && old(restrict[i]).Free? ==>
                restrict[i] == if bwConsumed[i] >= bwBudget[i] then Bound(Bytes)
                               else if cycleConsumed[i] >= cycleBudget[i] then Bound(Cycles)
                               else Free
      ensures old(SoundFlags(Tenants(), Now())) ==> SoundFlags(Tenants(), Now())
    {
      for t := 0 to tenants
        invariant forall i :: 0 <= i < t && old(restrict[i]).Bound? ==> restrict[i] == old(restrict[i])
        invariant forall i :: 0 <= i < t && old(restrict[i]).Free? ==>
                    restrict[i] == if bwConsumed[i] >= bwBudget[i] then Bound(Bytes)
                                   else if cycleConsumed[i] >= cycleBudget[i] then Bound(Cycles)
                                   else Free
        invariant forall i :: t <= i < tenants ==> restrict[i] == old(restrict[i])
      {
        if restrict[t].Bound? {
          continue;
        }
        var restriction := Free;
        if cycleConsumed[t] >= cycleBudget[t] {
          restriction := Bound(Cycles);
        }
        if bwConsumed[t] >= bwBudget[t] {
          restriction := Bound(Bytes);
        }
        if restriction.Bound? {
          restrict[t] := restriction;
        }
      }
      assert Tenants() == old(Tenants()) && Uses() == old(Uses());
    }

    // -------------------------------------------------------------- mode OFF

    /** One tenant of mode `OFF`: overshoot becomes debt and the budgets start again from their targets. */
    method ResetTenant(t: nat)
      requires Valid() && t < tenants
      modifies cycleBudget, bwBudget, cycleDebt, cycleConsumed, bwConsumed, restrict
      ensures TenantAt(t) == Settled(Off, old(TenantAt(t)), old(restrict[t]), old(UseAt(t))) && UseAt(t) == Use(0, 0)
      ensures forall i :: 0 <= i < tenants && i != t ==> TenantAt(i) == old(TenantAt(i)) && UseAt(i) == old(UseAt(i))
      ensures restrict[..] == old(restrict[..])[t := Free]
    {
      var budget, used := cycleBudget[t], cycleConsumed[t];
      cycleConsumed[t] := 0;
      bwConsumed[t] := 0;
      RecordDebt(budget, used, cycleDebt, t);
      cycleBudget[t] := cycleTarget[t];
      bwBudget[t] := bwTarget[t];
      restrict[t] := Free;
    }

    /** Pass one of mode `OFF`, which also lifts the restrictions. */
    method SettleOff()
      requires Valid()
      modifies cycleBudget, bwBudget, cycleDebt, cycleConsumed, bwConsumed, restrict
      ensures Tenants() == SettledAll(Off, old(Tenants()), old(Now()))
      ensures Now() == Fresh(tenants)
    {
      ghost var was, p := Tenants(), Now();
      for t := 0 to tenants
        invariant forall i :: 0 <= i < t ==>
                    && TenantAt(i) == Settled(Off, was[i], p.flags[i], p.uses[i])
                    && UseAt(i) == Use(0, 0) && restrict[i] == Free
        invariant forall i :: t <= i < tenants ==>
                    TenantAt(i) == was[i] && UseAt(i) == p.uses[i] && restrict[i] == p.flags[i]
      {
        ResetTenant(t);
      }
      assert Tenants() == SettledAll(Off, was, p);
      assert Now() == Fresh(tenants);
    }

    /** `sch_rollover_budget` in mode `OFF`. */
    method RolloverOff()
      requires Valid()
      modifies cycleBudget, bwBudget, cycleDebt, cycleConsumed, bwConsumed, restrict
      ensures Tenants() == Rollover(Off, old(Tenants()), old(Now()))
      ensures Now() == Fresh(tenants)
    {
      ghost var was, p := Tenants(), Now();
      SettleOff();
      RolloverLaws.OffSharesNothing(SettledAll(Off, was, p), p.flags, Pooled(Off, was, p));
      PayDebts();
    }

    // -------------------------------------------------------------- mode BUCKET

    /** Collects and zeroes the counters of one tenant, records debt and settles both accounts. */
    method CollectAndSettle(t: nat) returns (cycleSpill: u64, bwSpill: u64)
      requires Valid() && t < tenants && TenantAt(t).Valid()
      modifies cycleBudget, bwBudget, cycleDebt, cycleConsumed, bwConsumed
      ensures TenantAt(t) == Settled(Bucket, old(TenantAt(t)), restrict[t], old(UseAt(t))) && UseAt(t) == Use(0, 0)
      ensures forall i :: 0 <= i < tenants && i != t ==> TenantAt(i) == old(TenantAt(i)) && UseAt(i) == old(UseAt(i))
      ensures cycleSpill == Offer(Bucket, old(TenantAt(t)).cycle, false, old(UseAt(t)).cycles)
      ensures bwSpill == Offer(Bucket, old(TenantAt(t)).bw, false, old(UseAt(t)).bytes)
    {
      var budget, cycleUsed, bwUsed := cycleBudget[t], cycleConsumed[t], bwConsumed[t];
      cycleConsumed[t] := 0;
      bwConsumed[t] := 0;
      RecordDebt(budget, cycleUsed, cycleDebt, t);
      cycleSpill := Settle(cycleTarget[t], cycleCap[t], cycleUsed, cycleBudget, t);
      bwSpill := Settle(bwTarget[t], bwCap[t], bwUsed, bwBudget, t);
    }

    /** The caps of each resource together fit in a word. */
    ghost predicate CapsFit(limit: nat)
      requires Valid()
      reads Footprint()
    {
      forall r: Resource :: Sum(RolloverLaws.Caps(Tenants(), r)) <= limit
    }

    /** Pass one of mode `BUCKET`, for tenants that offer `cycleOffers` and `bwOffers`. */
    method CollectAll(ghost cycleOffers: seq<nat>, ghost bwOffers: seq<nat>) returns (cyclePool: u64, bwPool: u64)
      requires Valid() && AllValid(Tenants())
      requires |cycleOffers| == |bwOffers| == tenants && Sum(cycleOffers) <= MAX64 && Sum(bwOffers) <= MAX64
      requires forall i :: 0 <= i < tenants ==>
                 && cycleOffers[i] == Offer(Bucket, TenantAt(i).cycle, false, UseAt(i).cycles)
                 && bwOffers[i] == Offer(Bucket, TenantAt(i).bw, false, UseAt(i).bytes)
      modifies cycleBudget, bwBudget, cycleDebt, cycleConsumed, bwConsumed
      ensures forall i :: 0 <= i < tenants ==>
                TenantAt(i) == Settled(Bucket, old(TenantAt(i)), restrict[i], old(UseAt(i))) && UseAt(i) == Use(0, 0)
      ensures cyclePool == Sum(cycleOffers) && bwPool == Sum(bwOffers)
    {
      ghost var cycleSums := PrefixSums(cycleOffers);
      ghost var bwSums := PrefixSums(bwOffers);
      cyclePool, bwPool := 0, 0;
      for t := 0 to tenants
        invariant forall i :: 0 <= i < t ==>
                    && TenantAt(i) == Settled(Bucket, old(TenantAt(i)), restrict[i], old(UseAt(i)))
                    && UseAt(i) == Use(0, 0)
        invariant forall i :: t <= i < tenants ==> TenantAt(i) == old(TenantAt(i)) && UseAt(i) == old(UseAt(i))
        invariant cyclePool == cycleSums[t] && bwPool == bwSums[t]
      {
        assert old(Tenants())[t].Valid();
        var cycleSpill, bwSpill := CollectAndSettle(t);
        assert cycleSums[t + 1] == cycleSums[t] + cycleSpill && bwSums[t + 1] == bwSums[t] + bwSpill;
        cyclePool := Wrap64(cyclePool + cycleSpill);
        bwPool := Wrap64(bwPool + bwSpill);
      }
    }

    /** Pass one of mode `BUCKET` against the specification. */
    method SettleBucket() returns (cyclePool: u64, bwPool: u64)
      requires Valid() && AllValid(Tenants()) && CapsFit(MAX64)
      modifies cycleBudget, bwBudget, cycleDebt, cycleConsumed, bwConsumed
      ensures Tenants() == SettledAll(Bucket, old(Tenants()), old(Now()))
      ensures Pools(cyclePool, bwPool) == Pooled(Bucket, old(Tenants()), old(Now()))
      ensures Now() == Period(old(restrict[..]), seq(tenants, _ => Use(0, 0)))
    {
      ghost var was, p := Tenants(), Now();
      RolloverLaws.PoolsAreBounded(Bucket, was, p, Cycles, 0);
      RolloverLaws.PoolsAreBounded(Bucket, was, p, Bytes, 0);
      cyclePool, bwPool := CollectAll(Offers(Bucket, was, p, Cycles), Offers(Bucket, was, p, Bytes));
      assert Tenants() == SettledAll(Bucket, was, p);
    }

    /** `sch_rollover_budget` in mode `BUCKET`. */
    method RolloverBucket()
      requires Valid() && AllValid(Tenants()) && CapsFit(MAX64)
      modifies cycleBudget, bwBudget, cycleDebt, cycleConsumed, bwConsumed, restrict
      ensures Tenants() == Rollover(Bucket, old(Tenants()), old(Now()))
      ensures Now() == Fresh(tenants)
    {
      ghost var was, p := Tenants(), Now();
      SettledIsValid(Bucket, was, p);
      var cyclePool, bwPool := SettleBucket();
      ShareBucket(cyclePool, bwPool, p.flags);
      assert Tenants() == BeforeDebt(Bucket, was, p);
      assert Now() == Fresh(tenants);
      PayDebts();
    }

    /** Both accounts of one tenant take what they can from the pools. */
    method ReceiveBoth(t: nat, cyclePool: u64, bwPool: u64) returns (cycleLeft: u64, bwLeft: u64)
      requires Valid() && t < tenants && TenantAt(t).Valid()
      modifies cycleBudget, bwBudget
      ensures var was := old(TenantAt(t));
              TenantAt(t) == Granted(was, Min(was.cycle.Room(), cyclePool), Min(was.bw.Room(), bwPool))
      ensures forall i :: 0 <= i < tenants && i != t ==> TenantAt(i) == old(TenantAt(i))
      ensures cycleLeft == Monus(cyclePool, old(TenantAt(t)).cycle.Room())
      ensures bwLeft == Monus(bwPool, old(TenantAt(t)).bw.Room())
    {
      cycleLeft := Receive(cycleBudget, t, cycleCap[t], cyclePool);
      bwLeft := Receive(bwBudget, t, bwCap[t], bwPool);
    }

    /**
      Pass two of mode `BUCKET`: each tenant in turn fills its rooms from what those before it
      left, and is released.
     */
    method ReceiveAll(cyclePool: u64, bwPool: u64, ghost cycleBefore: seq<nat>, ghost bwBefore: seq<nat>)
      requires Valid() && AllValid(Tenants())
      requires RunningSums(Rooms(Tenants(), Cycles), cycleBefore) && RunningSums(Rooms(Tenants(), Bytes), bwBefore)
      modifies cycleBudget, bwBudget, restrict
      ensures forall i :: 0 <= i < tenants ==>
                && restrict[i] == Free
                && TenantAt(i) == Granted(old(TenantAt(i)),
                                          Min(old(TenantAt(i)).cycle.Room(), Monus(cyclePool, cycleBefore[i])),
                                          Min(old(TenantAt(i)).bw.Room(), Monus(bwPool, bwBefore[i])))
    {
      ghost var mid, cycleRooms, bwRooms := Tenants(), Rooms(Tenants(), Cycles), Rooms(Tenants(), Bytes);
      var cycleLeft, bwLeft := cyclePool, bwPool;
      for t := 0 to tenants
        invariant forall i :: 0 <= i < t ==>
                    && restrict[i] == Free
                    && TenantAt(i) == Granted(mid[i], Min(mid[i].cycle.Room(), Monus(cyclePool, cycleBefore[i])),
                                              Min(mid[i].bw.Room(), Monus(bwPool, bwBefore[i])))
        invariant forall i :: t <= i < tenants ==> TenantAt(i) == mid[i]
        invariant cycleLeft == Monus(cyclePool, cycleBefore[t]) && bwLeft == Monus(bwPool, bwBefore[t])
      {
        assert mid[t].Valid();
        assert cycleBefore[t + 1] == cycleBefore[t] + cycleRooms[t] && bwBefore[t + 1] == bwBefore[t] + bwRooms[t];
        cycleLeft, bwLeft := ReceiveBoth(t, cycleLeft, bwLeft);
        restrict[t] := Free;
      }
    }

    /** Pass two against the specification; the flags play no part in this mode. */
    method ShareBucket(cyclePool: u64, bwPool: u64, ghost flags: seq<Restriction>)
      requires Valid() && AllValid(Tenants()) && |flags| == tenants
      modifies cycleBudget, bwBudget, restrict
      ensures Tenants() == Shared(Bucket, old(Tenants()), flags, Pools(cyclePool, bwPool))
      ensures forall i :: 0 <= i < tenants ==> restrict[i] == Free
    {
      ghost var mid := Tenants();
      ghost var cycleBefore := PrefixSums(Rooms(mid, Cycles));
      ghost var bwBefore := PrefixSums(Rooms(mid, Bytes));
      ReceiveAll(cyclePool, bwPool, cycleBefore, bwBefore);
      RolloverLaws.BucketShares(mid, flags, Pools(cyclePool, bwPool), cycleBefore, bwBefore);
    }

    // -------------------------------------------------------------- mode DRF

    /** Room and target of the account that a restricted tenant is held back for. */
    method BoundAccount(t: nat) returns (room: u64, target: u64)
      requires Valid() && t < tenants && restrict[t].Bound?
      ensures room == TenantAt(t).Of(restrict[t].on).Room() && target == TenantAt(t).Of(restrict[t].on).target
    {
      room := 0;
      if restrict[t] == Bound(Cycles) {
        target := cycleTarget[t];
        if cycleBudget[t] < cycleCap[t] {
          room := cycleCap[t] - cycleBudget[t];
        }
      } else {
        target := bwTarget[t];
        if bwBudget[t] < bwCap[t] {
          room := bwCap[t] - bwBudget[t];
        }
      }
    }

    /** The first loop of `sch_distribute_drf_pool`, for tenants with the given claims. */
    method SumClaims(ghost cycleClaims: seq<nat>, ghost bwClaims: seq<nat>)
      returns (delta: u64, cycleSum: u64, bwSum: u64)
      requires Valid() && |cycleClaims| == |bwClaims| == tenants && Sum(cycleClaims) <= MAX64 && Sum(bwClaims) <= MAX64
      requires forall i :: 0 <= i < tenants ==>
                 && cycleClaims[i] == (if restrict[i] == Bound(Cycles) then cycleTarget[i] else 0)
                 && bwClaims[i] == (if restrict[i] == Bound(Bytes) then bwTarget[i] else 0)
                 && cycleCap[i] <= DRF_LIMIT && bwCap[i] <= DRF_LIMIT
      ensures delta == MinRatio(Tenants(), restrict[..], tenants)
      ensures cycleSum == Sum(cycleClaims) && bwSum == Sum(bwClaims)
    {
      ghost var ts, flags := Tenants(), restrict[..];
      ghost var cycleSums := PrefixSums(cycleClaims);
      ghost var bwSums := PrefixSums(bwClaims);
      delta, cycleSum, bwSum := DRF_CAP_EXTRA_Q20, 0, 0;
      for t := 0 to tenants
        invariant delta == MinRatio(ts, flags, t)
        invariant cycleSum == cycleSums[t] && bwSum == bwSums[t]
      {
        assert cycleSums[t + 1] == cycleSums[t] + cycleClaims[t] && bwSums[t + 1] == bwSums[t] + bwClaims[t];
        assert ts[t] == TenantAt(t) && flags[t] == restrict[t];
        if restrict[t].Free? {
          continue;
        }
        var room, target := BoundAccount(t);
        if restrict[t] == Bound(Cycles) {
          cycleSum := Wrap64(cycleSum + target);
        } else {
          bwSum := Wrap64(bwSum + target);
        }
        delta := LimitBy(delta, room, target);
      }
      assert restrict[..] == flags && Tenants() == ts;
    }

    /** The common ratio: what the tenants and then the pools allow. */
    method FindCommonDelta(cyclePool: u64, bwPool: u64) returns (delta: u64)
      requires Valid() && CapsFit(DRF_LIMIT) && AllValid(Tenants())
      requires cyclePool <= DRF_LIMIT && bwPool <= DRF_LIMIT
      ensures delta == CommonDelta(Tenants(), restrict[..], Pools(cyclePool, bwPool))
    {
      var cycleSum, bwSum;
      ghost var ts, flags := Tenants(), restrict[..];
      ClaimsFit(ts, flags, Cycles);
      ClaimsFit(ts, flags, Bytes);
      forall i | 0 <= i < tenants
        ensures ts[i] == TenantAt(i) && flags[i] == restrict[i]
      {
      }
      delta, cycleSum, bwSum := SumClaims(Claims(ts, flags, Cycles), Claims(ts, flags, Bytes));
      assert restrict[..] == flags && Tenants() == ts;
      delta := LimitByPool(delta, cyclePool, cycleSum);
      delta := LimitByPool(delta, bwPool, bwSum);
    }

    /**
      One iteration of the second loop for one resource. `debug` is `assert_debug`: the
      contract does not mention it, so both builds compute the same.
     */
    method GrantFromPool(debug: bool, budgets: array<u64>, t: nat, cap: u64, target: u64, delta: u64, pool: u64)
      returns (left: u64)
      requires t < budgets.Length && delta * target <= MAX64
      requires DrfAlloc(delta, target) <= Monus(cap, budgets[t]) && DrfAlloc(delta, target) <= pool
      modifies budgets
      ensures budgets[..] == old(budgets[..])[t := old(budgets[t]) + DrfAlloc(delta, target)]
      ensures left == pool - DrfAlloc(delta, target)
    {
      var room: u64 := 0;
      if debug && budgets[t] < cap {
        room := cap - budgets[t];
      }
      var alloc := WordAlloc(delta, target);
      if debug {
        if alloc > room {
          alloc := room;
        }
        if alloc > pool {
          alloc := pool;
        }
      }
      budgets[t] := Wrap64(budgets[t] + alloc);
      left := Wrap64(pool - alloc);
    }

    /** One iteration of the second loop. */
    method GrantTenant(debug: bool, t: nat, delta: u64, cyclePool: u64, bwPool: u64)
      returns (cycleLeft: u64, bwLeft: u64)
      requires Valid() && t < tenants
      requires restrict[t].Bound? ==>
                 var a := TenantAt(t).Of(restrict[t].on);
                 && delta * a.target <= MAX64 && DrfAlloc(delta, a.target) <= a.Room()
                 && DrfAlloc(delta, a.target) <= Pools(cyclePool, bwPool).Of(restrict[t].on)
      modifies cycleBudget, bwBudget
      ensures var t0 := old(TenantAt(t));
              var c := if restrict[t] == Bound(Cycles) then DrfAlloc(delta, t0.cycle.target) else 0;
              var b := if restrict[t] == Bound(Bytes) then DrfAlloc(delta, t0.bw.target) else 0;
              TenantAt(t) == Granted(t0, c, b) && cycleLeft == cyclePool - c && bwLeft == bwPool - b
      ensures forall i :: 0 <= i < tenants && i != t ==> TenantAt(i) == old(TenantAt(i))
    {
      cycleLeft, bwLeft := cyclePool, bwPool;
      if restrict[t].Free? {
        return;
      }
      if restrict[t] == Bound(Cycles) {
        cycleLeft := GrantFromPool(debug, cycleBudget, t, cycleCap[t], cycleTarget[t], delta, cyclePool);
      } else {
        bwLeft := GrantFromPool(debug, bwBudget, t, bwCap[t], bwTarget[t], delta, bwPool);
      }
    }

    /** The second loop, for a ratio that makes the given grants. */
    method GrantAll(debug: bool, delta: u64, cyclePool: u64, bwPool: u64,
                    ghost cycleAllocs: seq<nat>, ghost bwAllocs: seq<nat>)
      requires Valid() && |cycleAllocs| == |bwAllocs| == tenants
      requires Sum(cycleAllocs) <= cyclePool && Sum(bwAllocs) <= bwPool
      requires forall i :: 0 <= i < tenants ==>
                 && cycleAllocs[i] == (if restrict[i] == Bound(Cycles) then DrfAlloc(delta, cycleTarget[i]) else 0)
                 && bwAllocs[i] == (if restrict[i] == Bound(Bytes) then DrfAlloc(delta, bwTarget[i]) else 0)
                 && cycleAllocs[i] <= TenantAt(i).cycle.Room() && bwAllocs[i] <= TenantAt(i).bw.Room()
                 && delta * cycleTarget[i] <= MAX64 && delta * bwTarget[i] <= MAX64
      modifies cycleBudget, bwBudget
      ensures Tenants() == GrantedAll(old(Tenants()), cycleAllocs, bwAllocs)
    {
      ghost var cycleSums := PrefixSums(cycleAllocs);
      ghost var bwSums := PrefixSums(bwAllocs);
      var cycleLeft, bwLeft := cyclePool, bwPool;
      for t := 0 to tenants
        invariant forall i :: 0 <= i < t ==> TenantAt(i) == Granted(old(TenantAt(i)), cycleAllocs[i], bwAllocs[i])
        invariant forall i :: t <= i < tenants ==> TenantAt(i) == old(TenantAt(i))
        invariant cycleLeft == cyclePool - cycleSums[t] && bwLeft == bwPool - bwSums[t]
      {
        assert cycleSums[t + 1] == cycleSums[t] + cycleAllocs[t] && bwSums[t + 1] == bwSums[t] + bwAllocs[t];
        cycleLeft, bwLeft := GrantTenant(debug, t, delta, cycleLeft, bwLeft);
      }
    }

    /** `sch_distribute_drf_pool`, with or without the clamps of the debug build. */
    method DistributeDrfPool(debug: bool, cyclePool: u64, bwPool: u64)
      requires Valid() && CapsFit(DRF_LIMIT) && AllValid(Tenants())
      requires cyclePool <= DRF_LIMIT && bwPool <= DRF_LIMIT
      modifies cycleBudget, bwBudget
      ensures Tenants() == DrfSharing.Extended(old(Tenants()), restrict[..], Pools(cyclePool, bwPool))
    {
      ghost var mid, flags, pools := Tenants(), restrict[..], Pools(cyclePool, bwPool);
      assert Sum(RolloverLaws.Caps(mid, Cycles)) <= DRF_LIMIT && Sum(RolloverLaws.Caps(mid, Bytes)) <= DRF_LIMIT;
      var delta := FindCommonDelta(cyclePool, bwPool);
      assert restrict[..] == flags && Tenants() == mid;
      if delta == 0 {
        DrfSharing.ZeroRatio(mid, flags, pools);
        return;
      }
      AllocsFit(mid, flags, pools, Cycles);
      AllocsFit(mid, flags, pools, Bytes);
      forall i | 0 <= i < tenants
        ensures mid[i] == TenantAt(i) && flags[i] == restrict[i]
      {
      }
      GrantAll(debug, delta, cyclePool, bwPool,
               DrfSharing.Allocs(mid, flags, pools, Cycles), DrfSharing.Allocs(mid, flags, pools, Bytes));
    }

    /** One tenant of pass one: settle, then take back from a restricted account what is above its target. */
    method CollectAndReclaim(t: nat, ghost after: Tenant, ghost cycles: nat, ghost bytes: nat)
      returns (cycleOffer: u64, bwOffer: u64)
      requires Valid() && t < tenants
      requires Outcome(TenantAt(t), restrict[t], UseAt(t), after, cycles, bytes)
      modifies cycleBudget, bwBudget, cycleDebt, cycleConsumed, bwConsumed
      ensures TenantAt(t) == after && UseAt(t) == Use(0, 0) && cycleOffer == cycles && bwOffer == bytes
      ensures forall i :: 0 <= i < tenants && i != t ==> TenantAt(i) == old(TenantAt(i)) && UseAt(i) == old(UseAt(i))
    {
      RolloverLaws.ReclaimSettles(TenantAt(t), restrict[t], UseAt(t));
      cycleOffer, bwOffer := CollectAndSettle(t);
      ghost var settled := TenantAt(t);
      if restrict[t].Bound? {
        var excess;
        if restrict[t] == Bound(Cycles) {
          excess := ReclaimOverTarget(cycleBudget, t, cycleTarget[t]);
          cycleOffer := Wrap64(cycleOffer + excess);
          assert TenantAt(t) == settled.(cycle := settled.cycle.(budget := settled.cycle.target));
        } else {
          excess := ReclaimOverTarget(bwBudget, t, bwTarget[t]);
          bwOffer := Wrap64(bwOffer + excess);
          assert TenantAt(t) == settled.(bw := settled.bw.(budget := settled.bw.target));
        }
      }
    }

    /** Pass one of mode `DRF`, with its outcome given; `single` is the last restricted tenant. */
    method CollectActive(ghost mid: seq<Tenant>, ghost cycleOffers: seq<nat>, ghost bwOffers: seq<nat>)
      returns (cyclePool: u64, bwPool: u64, active: nat, single: nat)
      requires Valid() && |mid| == |cycleOffers| == |bwOffers| == tenants
      requires Sum(cycleOffers) <= MAX64 && Sum(bwOffers) <= MAX64
      requires forall i :: 0 <= i < tenants ==>
                 Outcome(TenantAt(i), restrict[i], UseAt(i), mid[i], cycleOffers[i], bwOffers[i])
      modifies cycleBudget, bwBudget, cycleDebt, cycleConsumed, bwConsumed
      ensures forall i :: 0 <= i < tenants ==> TenantAt(i) == mid[i] && UseAt(i) == Use(0, 0)
      ensures cyclePool == Sum(cycleOffers) && bwPool == Sum(bwOffers)
      ensures active == ActiveCount(restrict[..])
      ensures active > 0 ==> single < tenants && restrict[single].Bound?
    {
      ghost var cycleSums := PrefixSums(cycleOffers);
      ghost var bwSums := PrefixSums(bwOffers);
      ghost var flags := restrict[..];
      cyclePool, bwPool, active, single := 0, 0, 0, 0;
      for t := 0 to tenants
        invariant forall i :: 0 <= i < t ==> TenantAt(i) == mid[i] && UseAt(i) == Use(0, 0)
        invariant forall i :: t <= i < tenants ==> TenantAt(i) == old(TenantAt(i)) && UseAt(i) == old(UseAt(i))
        invariant cyclePool == cycleSums[t] && bwPool == bwSums[t]
        invariant active == ActiveCount(flags[..t])
        invariant active > 0 ==> single < t && flags[single].Bound?
      {
        RolloverLaws.ActiveStep(flags, t);
        assert cycleSums[t + 1] == cycleSums[t] + cycleOffers[t] && bwSums[t + 1] == bwSums[t] + bwOffers[t];
        var cycleOffer, bwOffer := CollectAndReclaim(t, mid[t], cycleOffers[t], bwOffers[t]);
        cyclePool := Wrap64(cyclePool + cycleOffer);
        bwPool := Wrap64(bwPool + bwOffer);
        if restrict[t].Bound? {
          active := active + 1;
          single := t;
        }
      }
      assert restrict[..] == flags == flags[..tenants];
    }

    /** What follows pass one: nothing, the single restricted tenant takes all it can, or the pools are divided. */
    method ShareActive(debug: bool, cyclePool: u64, bwPool: u64, active: nat, single: nat)
      requires Valid() && AllValid(Tenants()) && CapsFit(DRF_LIMIT)
      requires cyclePool <= DRF_LIMIT && bwPool <= DRF_LIMIT
      requires active == ActiveCount(restrict[..])
      requires active > 0 ==> single < tenants && restrict[single].Bound?
      modifies cycleBudget, bwBudget, restrict
      ensures Tenants() == Shared(Drf, old(Tenants()), old(restrict[..]), Pools(cyclePool, bwPool))
      ensures forall i :: 0 <= i < tenants ==> restrict[i] == Free
    {
      ghost var mid, flags, pools := Tenants(), restrict[..], Pools(cyclePool, bwPool);
      ghost var done := Shared(Drf, mid, flags, pools);
      if active == 1 {
        ghost var k := RolloverLaws.OneActive(flags);
        assert k == single;
        var _ := Receive(cycleBudget, single, cycleCap[single], cyclePool);
        var _ := Receive(bwBudget, single, bwCap[single], bwPool);
        restrict[single] := Free;
        forall i | 0 <= i < tenants
          ensures TenantAt(i) == done[i]
        {
        }
      } else if active > 1 {
        DrfSharing.ExtendedIsShared(mid, flags, pools);
        DistributeDrfPool(debug, cyclePool, bwPool);
        for t := 0 to tenants
          invariant forall i :: 0 <= i < t ==> restrict[i] == Free
          invariant Tenants() == done
        {
          if restrict[t].Bound? {
            restrict[t] := Free;
          }
        }
      } else {
        RolloverLaws.NoneActive(flags);
        assert Tenants() == done;
      }
    }

    /** Pass one of mode `DRF` against the specification. */
    method SettleDrf() returns (cyclePool: u64, bwPool: u64, active: nat, single: nat)
      requires Valid() && AllValid(Tenants()) && CapsFit(DRF_LIMIT)
      modifies cycleBudget, bwBudget, cycleDebt, cycleConsumed, bwConsumed
      ensures Tenants() == SettledAll(Drf, old(Tenants()), old(Now()))
      ensures Pools(cyclePool, bwPool) == Pooled(Drf, old(Tenants()), old(Now()))
      ensures cyclePool <= DRF_LIMIT && bwPool <= DRF_LIMIT
      ensures active == ActiveCount(restrict[..])
      ensures active > 0 ==> single < tenants && restrict[single].Bound?
      ensures Now() == Period(old(restrict[..]), seq(tenants, _ => Use(0, 0)))
    {
      ghost var was, p := Tenants(), Now();
      ghost var mid := SettledAll(Drf, was, p);
      ghost var cycleOffers, bwOffers := Offers(Drf, was, p, Cycles), Offers(Drf, was, p, Bytes);
      RolloverLaws.PoolsAreBounded(Drf, was, p, Cycles, 0);
      RolloverLaws.PoolsAreBounded(Drf, was, p, Bytes, 0);
      Outcomes(was, p);
      forall i | 0 <= i < tenants
        ensures was[i] == TenantAt(i) && p.flags[i] == restrict[i] && p.uses[i] == UseAt(i)
      {
      }
      cyclePool, bwPool, active, single := CollectActive(mid, cycleOffers, bwOffers);
      assert Tenants() == mid;
    }

    /** `sch_rollover_budget` in mode `DRF`. */
    method RolloverDrf(debug: bool)
      requires Valid() && AllValid(Tenants()) && CapsFit(DRF_LIMIT)
      modifies cycleBudget, bwBudget, cycleDebt, cycleConsumed, bwConsumed, restrict
      ensures Tenants() == Rollover(Drf, old(Tenants()), old(Now()))
      ensures Now() == Fresh(tenants)
    {
      ghost var was, p := Tenants(), Now();
      SettledIsValid(Drf, was, p);
      SettledKeepsCaps(Drf, was, p);
      var cyclePool, bwPool, active, single := SettleDrf();
      assert restrict[..] == p.flags;
      ShareActive(debug, cyclePool, bwPool, active, single);
      assert Tenants() == BeforeDebt(Drf, was, p);
      assert Now() == Fresh(tenants);
      PayDebts();
    }

    // -------------------------------------------------------------- any mode

    /** What every rollover needs and keeps. */
    ghost predicate Good()
      reads Footprint()
    {
      Valid() && AllValid(Tenants()) && CapsFit(DRF_LIMIT)
    }

    /** `sch_rollover_budget` as compiled for a mode, with or without `assert_debug`. */
    method RolloverBudget(mode: Mode, debug: bool)
      requires Good()
      modifies cycleBudget, bwBudget, cycleDebt, cycleConsumed, bwConsumed, restrict
      ensures Good()
      ensures Tenants() == Rollover(mode, old(Tenants()), old(Now()))
      ensures Now() == Fresh(tenants)
    {
      ghost var was, p := Tenants(), Now();
      assert forall r: Resource :: Sum(RolloverLaws.Caps(was, r)) <= DRF_LIMIT;
      RolloverLaws.RolloverKeepsValid(mode, was, p);
      RolloverLaws.RolloverKeepsCaps(mode, was, p);
      match mode
      case Off => RolloverOff();
      case Bucket => RolloverBucket();
      case Drf => RolloverDrf(debug);
    }
  }

  /** The share of one weight, on words. */
  function Quota(base: u64, weight: u32, total: u32): (q: u64)
    requires total > 0
    ensures base * weight <= MAX64 ==> q == Share(base, weight, total)
  {
    WordQuotient(Wrap64(base * weight), total);
    Wrap64(base * weight) / total
  }

  lemma WordQuotient(x: u64, y: u32)
    requires y > 0
    ensures 0 <= x / y <= x
  {
    Grow(1, y, x / y);
    assert x == y * (x / y) + x % y;
  }

  lemma {:induction false} QuotaFits(base: nat, weights: seq<u32>, t: nat)
    requires t < |weights| && Sum(weights) > 0 && base < 0x1_0000_0000
    ensures base * weights[t] <= MAX64
    ensures Shares(base, weights)[t] <= base
  {
    Grow(base, 0xFFFF_FFFF, weights[t]);
    SumNonNeg(weights);
    ShareBounds(base, weights[t], Sum(weights));
    Grow(weights[t], Sum(weights), base);
    assert (base + 1) * Sum(weights) == base * Sum(weights) + Sum(weights);
    CancelLess(Shares(base, weights)[t], base + 1, Sum(weights));
  }

  lemma {:induction false} InitialCapsFit(threads: nat, hostMemory: bool, cw: seq<nat>, schedulers: nat, bw: seq<nat>)
    requires |cw| == |bw| && Sum(cw) > 0 && Sum(bw) > 0 && threads <= MAX_THREADS
    ensures var ts := InitialTenants(BaseCycles(threads, hostMemory), cw, BaseBytes(schedulers), bw);
            forall r: Resource :: Sum(RolloverLaws.Caps(ts, r)) <= DRF_LIMIT
  {
    BaseCyclesBound(threads, hostMemory);
    BaseBytesBound(schedulers);
    InitialTenantsFit(BaseCycles(threads, hostMemory), cw, BaseBytes(schedulers), bw);
  }

  lemma BaseBytesBound(schedulers: nat)
    ensures BaseBytes(schedulers) <= LINK_BYTES_PER_PERIOD
  {
  }

  /** What pass one of mode `DRF` makes of one tenant: its new state and its two offers. */
  predicate Outcome(t: Tenant, f: Restriction, u: Use, after: Tenant, cycles: nat, bytes: nat) {
    && t.Valid() && after == Settled(Drf, t, f, u)
    && cycles == Offer(Drf, t.cycle, f == Bound(Cycles), u.cycles)
    && bytes == Offer(Drf, t.bw, f == Bound(Bytes), u.bytes)
  }

  lemma Outcomes(ts: seq<Tenant>, p: Period)
    requires Fits(ts, p) && AllValid(ts)
    ensures forall i :: 0 <= i < |ts| ==>
              Outcome(ts[i], p.flags[i], p.uses[i], SettledAll(Drf, ts, p)[i],
                      Offers(Drf, ts, p, Cycles)[i], Offers(Drf, ts, p, Bytes)[i])
  {
    forall i | 0 <= i < |ts|
      ensures Outcome(ts[i], p.flags[i], p.uses[i], SettledAll(Drf, ts, p)[i],
                      Offers(Drf, ts, p, Cycles)[i], Offers(Drf, ts, p, Bytes)[i])
    {
      assert ts[i].Valid();
    }
  }

  lemma SettledIsValid(mode: Mode, ts: seq<Tenant>, p: Period)
    requires Fits(ts, p) && AllValid(ts)
    ensures AllValid(SettledAll(mode, ts, p))
  {
    forall i | 0 <= i < |ts|
      ensures SettledAll(mode, ts, p)[i].Valid()
    {
      assert ts[i].Valid();
    }
  }

  lemma SettledKeepsCaps(mode: Mode, ts: seq<Tenant>, p: Period)
    requires Fits(ts, p)
    ensures forall r: Resource :: RolloverLaws.Caps(SettledAll(mode, ts, p), r) == RolloverLaws.Caps(ts, r)
  {
  }

  // ---------------------------------------------------------------- 64-bit fixed point

  /** With the caps of a resource below 2^44 together, no shift or product of mode `DRF` wraps. */
  const DRF_LIMIT: nat := 0xFFF_FFFF_FFFF

  /** `sch_ratio_q20`. */
  function WordRatio(amount: u64, target: u64): (r: u64)
    ensures amount <= DRF_LIMIT ==> r == RatioQ20(amount, target)
  {
    if amount == 0 || target == 0 then 0 else Wrap64(amount * Q20) / target
  }

  /** `sch_min_u64` with a ratio. */
  function LimitBy(delta: u64, amount: u64, target: u64): (d: u64)
    ensures amount <= DRF_LIMIT ==> d == Min(delta, RatioQ20(amount, target))
  {
    var ratio := WordRatio(amount, target);
    if delta < ratio then delta else ratio
  }

  /** What a pool allows, if anyone has a claim to it. */
  function LimitByPool(delta: u64, pool: u64, claims: u64): (d: u64)
    ensures pool <= DRF_LIMIT ==> d == PoolLimited(delta, pool, claims)
  {
    if claims != 0 then LimitBy(delta, pool, claims) else delta
  }

  /** `sch_drf_alloc`. */
  function WordAlloc(delta: u64, target: u64): (r: u64)
    ensures delta * target <= MAX64 ==> r == DrfAlloc(delta, target)
  {
    Wrap64(delta * target) / Q20
  }

  /** Claims and caps stay under the configured limit. */
  lemma ClaimsFit(ts: seq<Tenant>, flags: seq<Restriction>, r: Resource)
    requires |flags| == |ts| && AllValid(ts)
    requires Sum(RolloverLaws.Caps(ts, r)) <= DRF_LIMIT
    ensures Sum(Claims(ts, flags, r)) <= DRF_LIMIT
    ensures forall i :: 0 <= i < |ts| ==> ts[i].Of(r).target <= ts[i].Of(r).cap <= DRF_LIMIT
  {
    var claims, caps := Claims(ts, flags, r), RolloverLaws.Caps(ts, r);
    SumNonNeg(caps);
    forall i | 0 <= i < |ts|
      ensures claims[i] <= caps[i] && ts[i].Of(r).target <= ts[i].Of(r).cap == caps[i]
    {
      assert ts[i].Valid();
    }
    SumLe(claims, caps);
  }

  /** The unclamped grants fit in the pool, in the rooms, and their products in a word. */
  lemma AllocsFit(ts: seq<Tenant>, flags: seq<Restriction>, pools: Pools, r: Resource)
    requires |flags| == |ts| && AllValid(ts)
    requires Sum(RolloverLaws.Caps(ts, r)) <= DRF_LIMIT
    ensures var xs := DrfSharing.Allocs(ts, flags, pools, r);
            Sum(xs) <= pools.Of(r) && forall i :: 0 <= i < |ts| ==> xs[i] <= ts[i].Of(r).Room()
    ensures forall i :: 0 <= i < |ts| ==> CommonDelta(ts, flags, pools) * ts[i].Of(r).target <= MAX64
  {
    var delta := CommonDelta(ts, flags, pools);
    DrfSharing.ClampsAreRedundant(ts, flags, pools, r, |ts|);
    SumWhole(DrfSharing.Allocs(ts, flags, pools, r));
    DrfSharing.DeltaIsLargest(ts, flags, pools, delta);
    ClaimsFit(ts, flags, r);
    forall i | 0 <= i < |ts|
      ensures delta * ts[i].Of(r).target <= MAX64
    {
      Grow(delta, DRF_CAP_EXTRA_Q20, ts[i].Of(r).target);
    }
  }

  /** No restriction and nothing used: where every period starts. */
  ghost function Fresh(n: nat): (p: Period)
    ensures |p.flags| == |p.uses| == n
  {
    Period(seq(n, i => Free), seq(n, i => Use(0, 0)))
  }
}
