/** How initialisation splits a base budget over weighted tenants. */
module Apportion {
  import opened Words
  import opened Budget
  import RolloverLaws

  const SCHED_PERIOD_CYCLES: nat := 1800000
  const MAX_CYCLE_PERCENTAGE_DPU_MEM: nat := 8483
  const MAX_CYCLE_PERCENTAGE_DPA_HEAP: nat := 7800
  const MAX_CYCLE_TOTAL: nat := 10000
  /** `DEFAULT_LINK_BANDWIDTH_BPS / 8 / 1000`: bytes of the link in one period. */
  const LINK_BYTES_PER_PERIOD: nat := 11250000
  /** Entries of `dpa_thds_ctx`. */
  const MAX_THREADS: nat := 190

  /** `sch_budget_cap` with a cap of 2/1. */
  function BudgetCap(target: u64): (cap: u64)
    ensures cap >= target
    ensures 2 * target <= MAX64 ==> cap == 2 * target
  {
    var cap := Wrap64(target * 2) / 1;
    if cap > target then cap else target
  }

  function BaseCycles(threads: nat, hostMemory: bool): nat {
    SCHED_PERIOD_CYCLES * threads
    * (if hostMemory then MAX_CYCLE_PERCENTAGE_DPU_MEM else MAX_CYCLE_PERCENTAGE_DPA_HEAP) / MAX_CYCLE_TOTAL
  }

  /** The share of each scheduler in the link; no scheduler count means one. */
  function BaseBytes(schedulers: nat): nat {
    LINK_BYTES_PER_PERIOD / (if schedulers == 0 then 1 else schedulers)
  }

  function Share(base: nat, weight: nat, total: nat): (s: nat)
    requires total > 0
  {
    base * weight / total
  }

  function Shares(base: nat, weights: seq<nat>): (xs: seq<nat>)
    requires Sum(weights) > 0
    ensures |xs| == |weights|
  {
    seq(|weights|, i requires 0 <= i < |weights| => Share(base, weights[i], Sum(weights)))
  }

  lemma ShareBounds(base: nat, w: nat, total: nat)
    requires total > 0
    ensures Share(base, w, total) * total <= base * w < Share(base, w, total) * total + total
  {
    var x := base * w;
    assert x == total * (x / total) + x % total;
  }

  /** `k` shares with sum `s` have lost at most `total - 1` each against the exact `base * w`. */
  predicate Rounded(s: int, base: int, w: int, total: int, k: int) {
    s * total <= base * w <= s * total + k * (total - 1)
  }

  lemma RoundedStep(s: int, base: nat, w: int, total: nat, k: int, weight: nat)
    requires total > 0 && Rounded(s, base, w, total, k)
    ensures Rounded(s + Share(base, weight, total), base, w + weight, total, k + 1)
  {
    ShareBounds(base, weight, total);
    var x := Share(base, weight, total);
    assert base * (w + weight) == base * w + base * weight;
    assert (s + x) * total == s * total + x * total;
    assert (k + 1) * (total - 1) == k * (total - 1) + (total - 1);
  }

  lemma {:induction false} PrefixShares(base: nat, weights: seq<nat>, k: nat)
    requires Sum(weights) > 0 && k <= |weights|
    ensures Rounded(Sum(Shares(base, weights)[..k]), base, Sum(weights[..k]), Sum(weights), k)
  {
    if k > 0 {
      PrefixShares(base, weights, k - 1);
      SumStep(Shares(base, weights), k - 1);
      SumStep(weights, k - 1);
      RoundedStep(Sum(Shares(base, weights)[..k - 1]), base, Sum(weights[..k - 1]), Sum(weights),
                  k - 1, weights[k - 1]);
    }
  }

  lemma RoundedWhole(s: int, base: nat, total: nat, n: nat)
    requires total > 0 && n > 0 && Rounded(s, base, total, total, n)
    ensures base - n < s <= base
  {
    assert (base + 1) * total == base * total + total;
    CancelLess(s, base + 1, total);
    assert (s + n) * total == s * total + n * (total - 1) + n;
    CancelLess(base, s + n, total);
  }

  /**
    The targets never exceed the base budget, and rounding loses less than one unit for each
    tenant, whatever the weights.
   */
  lemma {:induction false} Apportioned(base: nat, weights: seq<nat>)
    requires Sum(weights) > 0
    ensures base - |weights| < Sum(Shares(base, weights)) <= base
  {
    PrefixShares(base, weights, |weights|);
    SumWhole(weights);
    SumWhole(Shares(base, weights));
    RoundedWhole(Sum(Shares(base, weights)), base, Sum(weights), |weights|);
  }

  /** Over all schedulers, each with weights of its own, the byte targets stay within the link. */
  lemma {:induction false} LinkIsNotOversold(schedulers: nat, k: nat, weights: seq<seq<nat>>)
    requires k <= schedulers && |weights| == k
    requires forall j :: 0 <= j < k ==> Sum(weights[j]) > 0
    ensures Sum(seq(k, j requires 0 <= j < k => Sum(Shares(BaseBytes(schedulers), weights[j]))))
            <= LINK_BYTES_PER_PERIOD
  {
    var base := BaseBytes(schedulers);
    var totals := seq(k, j requires 0 <= j < k => Sum(Shares(base, weights[j])));
    var bases := seq(k, j => base);
    forall j | 0 <= j < k
      ensures totals[j] <= bases[j]
    {
      Apportioned(base, weights[j]);
    }
    SumLe(totals, bases);
    SumConst(bases, base);
    if schedulers > 0 {
      Grow(k, schedulers, base);
      DivFloor(LINK_BYTES_PER_PERIOD, schedulers);
    }
  }

  lemma DivFloor(x: nat, y: nat)
    requires y > 0
    ensures y * (x / y) <= x < y * (x / y) + y
  {
    assert x == y * (x / y) + x % y;
  }

  /** Tenants of all schedulers together, one for each weight. */
  function Count(weights: seq<seq<nat>>): nat {
    if weights == [] then 0 else Count(weights[..|weights| - 1]) + |weights[|weights| - 1]|
  }

  lemma {:induction false} TotalsFallShort(base: nat, weights: seq<seq<nat>>, totals: seq<int>)
    requires |totals| == |weights| && forall j :: 0 <= j < |weights| ==> base - |weights[j]| < totals[j]
    ensures Sum(totals) >= |weights| * base - Count(weights) + |weights|
  {
    if weights != [] {
      var n := |weights| - 1;
      TotalsFallShort(base, weights[..n], totals[..n]);
      OneMore(n, base);
    }
  }

  /**
    The other half: when every scheduler has its tenants, the byte targets of all of them
    together fall short of the link by less than the number of tenants.
   */
  lemma {:induction false} LinkIsUsed(weights: seq<seq<nat>>)
    requires weights != [] && forall j :: 0 <= j < |weights| ==> Sum(weights[j]) > 0
    ensures var s := |weights|;
            Sum(seq(s, j requires 0 <= j < s => Sum(Shares(BaseBytes(s), weights[j]))))
            > 90_000_000_000 / 8 / 1000 - Count(weights)
  {
    var s := |weights|;
    var base := BaseBytes(s);
    var totals := seq(s, j requires 0 <= j < s => Sum(Shares(base, weights[j])));
    forall j | 0 <= j < s
      ensures base - |weights[j]| < totals[j]
    {
      Apportioned(base, weights[j]);
    }
    TotalsFallShort(base, weights, totals);
    DivFloor(LINK_BYTES_PER_PERIOD, s);
  }

  /** A scheduler count that was never set counts as one, and one scheduler has the whole link. */
  lemma OneSchedulerHasTheLink()
    ensures BaseBytes(0) == BaseBytes(1) == 90_000_000_000 / 8 / 1000
  {
  }

  /**
    The cycle budget of a scheduler is what its threads have in a period of 1.8 million cycles,
    less the part that the location of the buffers costs, rounded down.
   */
  lemma CycleBaseIsExact(threads: nat, hostMemory: bool)
    ensures var base := BaseCycles(threads, hostMemory);
            var exact := 1_800_000 * threads * (if hostMemory then 8483 else 7800);
            base * 10_000 <= exact < base * 10_000 + 10_000
  {
  }

  lemma {:induction false} SumConst(xs: seq<int>, c: int)
    requires forall i :: 0 <= i < |xs| ==> xs[i] == c
    ensures Sum(xs) == |xs| * c
  {
    if xs != [] {
      SumConst(xs[..|xs| - 1], c);
      assert |xs| * c == (|xs| - 1) * c + c;
    }
  }

  // ---------------------------------------------------------------- the initial tenants

  function Opened(target: nat): Account {
    Account(target, 2 * target, target)
  }

  /** The tenants that initialisation sets up. */
  function InitialTenants(cycleBase: nat, cycleWeights: seq<nat>, bwBase: nat, bwWeights: seq<nat>): (ts: seq<Tenant>)
    requires |cycleWeights| == |bwWeights| && Sum(cycleWeights) > 0 && Sum(bwWeights) > 0
    ensures |ts| == |cycleWeights|
  {
    seq(|cycleWeights|, i requires 0 <= i < |cycleWeights| =>
      Tenant(Opened(Shares(cycleBase, cycleWeights)[i]), Opened(Shares(bwBase, bwWeights)[i]), 0))
  }

  lemma {:induction false} SumDouble(xs: seq<int>, ys: seq<int>)
    requires |xs| == |ys| && forall i :: 0 <= i < |xs| ==> ys[i] == 2 * xs[i]
    ensures Sum(ys) == 2 * Sum(xs)
  {
    if xs != [] {
      SumDouble(xs[..|xs| - 1], ys[..|ys| - 1]);
    }
  }

  lemma BaseCyclesBound(threads: nat, hostMemory: bool)
    requires threads <= MAX_THREADS
    ensures BaseCycles(threads, hostMemory) <= SCHED_PERIOD_CYCLES * MAX_THREADS
  {
  }

  /** Each tenant opens with its own share of each base as target and budget, and twice that as cap. */
  lemma {:induction false} InitialShares(cycleBase: nat, cycleWeights: seq<nat>, bwBase: nat, bwWeights: seq<nat>,
                                         i: nat)
    requires |cycleWeights| == |bwWeights| && Sum(cycleWeights) > 0 && Sum(bwWeights) > 0 && i < |cycleWeights|
    ensures var t := InitialTenants(cycleBase, cycleWeights, bwBase, bwWeights)[i];
            && (t.cycle.target * Sum(cycleWeights) <= cycleBase * cycleWeights[i]
                < t.cycle.target * Sum(cycleWeights) + Sum(cycleWeights))
            && (t.bw.target * Sum(bwWeights) <= bwBase * bwWeights[i]
                < t.bw.target * Sum(bwWeights) + Sum(bwWeights))
            && t.cycle.budget == t.cycle.target && t.cycle.cap == 2 * t.cycle.target
            && t.bw.budget == t.bw.target && t.bw.cap == 2 * t.bw.target && t.debt == 0
  {
    ShareBounds(cycleBase, cycleWeights[i], Sum(cycleWeights));
    ShareBounds(bwBase, bwWeights[i], Sum(bwWeights));
  }

  /** Initial budgets are valid, and for each resource the caps together are at most twice the base. */
  lemma {:induction false} InitialTenantsFit(cycleBase: nat, cycleWeights: seq<nat>, bwBase: nat, bwWeights: seq<nat>)
    requires |cycleWeights| == |bwWeights| && Sum(cycleWeights) > 0 && Sum(bwWeights) > 0
    ensures var ts := InitialTenants(cycleBase, cycleWeights, bwBase, bwWeights);
            && AllInitial(ts) && Sum(RolloverLaws.CycleTargets(ts)) <= cycleBase
            && Sum(RolloverLaws.Caps(ts, Cycles)) <= 2 * cycleBase && Sum(RolloverLaws.Caps(ts, Bytes)) <= 2 * bwBase
  {
    var ts := InitialTenants(cycleBase, cycleWeights, bwBase, bwWeights);
    Apportioned(cycleBase, cycleWeights);
    Apportioned(bwBase, bwWeights);
    SumDouble(Shares(cycleBase, cycleWeights), RolloverLaws.Caps(ts, Cycles));
    SumDouble(Shares(bwBase, bwWeights), RolloverLaws.Caps(ts, Bytes));
    assert RolloverLaws.CycleTargets(ts) == Shares(cycleBase, cycleWeights);
  }
}
