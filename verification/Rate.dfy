/** How fast cycles can be used: rollovers are a period apart, and the ledger bounds each window of time. */
module RateLaws {
  import opened Words
  import opened Budget
  import opened Apportion
  import opened RolloverLaws
  import opened RunLaws
  import opened Protocol
  import opened Interleaving
  import opened Collection
  import opened Guarantees

  // ---------------------------------------------------------------- rollovers are a period apart

  /** In this step the scheduler begins a rollover. */
  predicate Begins(s: State, a: Action) {
    a.SchedulerStep? && s.pc.Clock? && s.clock >= s.next
  }

  /**
    Since a moment `start` at which `base` rollovers had begun: if more have begun since, the
    next one is due as many periods after `start`.
   */
  predicate PacedSince(start: nat, base: nat, s: State) {
    && s.clock >= start && s.next <= s.clock + SCHED_PERIOD_CYCLES && Begun(s) >= base
    && (Begun(s) > base ==> s.next >= start + (Begun(s) - base) * SCHED_PERIOD_CYCLES)
  }

  lemma PaceStep(cfg: Config, s: State, a: Action, s': State, start: nat, base: nat)
    requires Next(cfg, s, a, s') && PacedSince(start, base, s)
    ensures PacedSince(start, base, s')
    ensures Begins(s, a) ==> Begun(s') == Begun(s) + 1
  {
    OneMore(Begun(s) - base, SCHED_PERIOD_CYCLES);
    if a.WorkerStep? {
      WorkerKeepsPrivate(cfg, s, a);
    } else if Begins(s, a) {
      assert Begun(s') == Begun(s) + 1 && s'.next == s.clock + SCHED_PERIOD_CYCLES;
    } else {
      assert Begun(s') == Begun(s);
    }
  }

  lemma {:induction false} PaceOfWindow(cfg: Config, b: seq<State>, acts: seq<Action>, i: nat, j: nat)
    requires Behaviour(cfg, b, acts) && i <= j <= |acts|
    ensures PacedSince(b[i].clock, Begun(b[i]), b[j])
  {
    if i == j {
      BehaviourInv(cfg, b, acts, i);
    } else {
      PaceOfWindow(cfg, b, acts, i, j - 1);
      StepAt(cfg, b, acts, j - 1);
      PaceStep(cfg, b[j - 1], acts[j - 1], b[j], b[i].clock, Begun(b[i]));
    }
  }

  /** Any two rollovers of a run begin at least a period apart, also when the handler was entered again in between. */
  lemma RolloversAreApart(cfg: Config, b: seq<State>, acts: seq<Action>, i: nat, j: nat)
    requires Behaviour(cfg, b, acts) && i < j < |acts|
    requires Begins(b[i], acts[i]) && Begins(b[j], acts[j])
    ensures b[j].clock >= b[i].clock + SCHED_PERIOD_CYCLES
  {
    PaceOfWindow(cfg, b, acts, i, i);
    StepAt(cfg, b, acts, i);
    PaceStep(cfg, b[i], acts[i], b[i + 1], b[i].clock, Begun(b[i]));
    PaceOfWindow(cfg, b, acts, i, j);
    PaceOfWindow(cfg, b, acts, i + 1, j);
    AtLeastOnce(Begun(b[j]) - Begun(b[i]), SCHED_PERIOD_CYCLES);
  }

  lemma AtLeastOnce(n: int, x: nat)
    requires n >= 1
    ensures n * x >= x
  {
    Grow(1, n, x);
  }

  // ---------------------------------------------------------------- what a run has used

  function ChargedCycles(s: State): (xs: seq<nat>)
    ensures |xs| == |s.past.charged|
  {
    seq(|s.past.charged|, i requires 0 <= i < |s.past.charged| => s.past.charged[i].cycles)
  }

  function UsedCycles(ps: seq<Period>, n: nat): (xs: seq<nat>)
    requires AllFit(n, ps)
    ensures |xs| == n
  {
    seq(n, i requires 0 <= i < n => UsedBy(ps, i, Cycles))
  }

  lemma {:induction false} TotalIsSumOfTenants(ps: seq<Period>, n: nat)
    requires AllFit(n, ps)
    ensures TotalUsed(ps) == Sum(UsedCycles(ps, n))
  {
    if ps == [] {
      SumZero(UsedCycles(ps, n));
    } else {
      var k := |ps| - 1;
      TotalIsSumOfTenants(ps[..k], n);
      var zeros := seq(n, i => 0);
      SumZero(zeros);
      SumBalance(UsedCycles(ps, n), zeros, UsedCycles(ps[..k], n), CycleUses(ps[k]));
    }
  }

  /**
    The rate bound for the interleaved system. Between rollovers, all cycles ever charged are
    what the targets paid in over the elapsed time allow, plus what is owed and not yet collected.
   */
  lemma ChargesAreBounded(cfg: Config, s: State)
    requires Reachable(cfg, s) && Checking(s.pc)
    requires CyclesCounted(cfg, s)
    ensures WellFormed(cfg, s)
    ensures Sum(ChargedCycles(s)) + TotalDropped(cfg.mode, cfg.initial, s.past.periods) + Sum(CycleBudgets(s.tenants))
            == (|s.past.periods| + 1) * Sum(CycleTargets(cfg.initial)) + Sum(Debts(s.tenants)) + Sum(s.cycles)
    ensures TotalDropped(cfg.mode, cfg.initial, s.past.periods) >= 0
    ensures |s.past.periods| * SCHED_PERIOD_CYCLES <= s.clock - s.past.since
  {
    TotalCharged(cfg, s);
    var dropped := Books(cfg, s);
  }

  /** Hence the cycles charged in `D` clock cycles: one sum of targets per period begun, and what is outstanding. */
  lemma RateIsBounded(cfg: Config, s: State)
    requires Reachable(cfg, s) && Checking(s.pc)
    requires CyclesCounted(cfg, s)
    ensures WellFormed(cfg, s) && s.clock >= s.past.since
    ensures Sum(ChargedCycles(s))
            <= ((s.clock - s.past.since) / SCHED_PERIOD_CYCLES + 1) * Sum(CycleTargets(cfg.initial))
               + Sum(Debts(s.tenants)) + Sum(s.cycles)
  {
    ChargesAreBounded(cfg, s);
    SumNonNeg(CycleBudgets(s.tenants));
    SumNonNeg(CycleTargets(cfg.initial));
    PeriodsFit(|s.past.periods|, s.clock - s.past.since);
    Grow(|s.past.periods| + 1, (s.clock - s.past.since) / SCHED_PERIOD_CYCLES + 1, Sum(CycleTargets(cfg.initial)));
  }

  lemma BetweenRollovers(cfg: Config, s: State)
    requires Reachable(cfg, s) && Checking(s.pc)
    requires CyclesCounted(cfg, s)
    ensures cfg.Valid() && WellFormed(cfg, s) && s.tenants == Run(cfg.mode, cfg.initial, s.past.periods)
    ensures forall i :: 0 <= i < cfg.Tenants() ==> UsedBy(s.past.periods, i, Cycles) <= MAX64
    ensures |s.past.periods| * SCHED_PERIOD_CYCLES <= s.clock - s.past.since
  {
    ReachableInv(cfg, s);
    forall i | 0 <= i < cfg.Tenants()
      ensures UsedBy(s.past.periods, i, Cycles) <= MAX64
    {
      CollectedFits(cfg, s, i, Cycles);
    }
  }

  lemma TotalCharged(cfg: Config, s: State)
    requires Reachable(cfg, s) && Checking(s.pc)
    requires CyclesCounted(cfg, s)
    ensures Sum(ChargedCycles(s)) == TotalUsed(s.past.periods) + Sum(s.cycles)
  {
    ReachableInv(cfg, s);
    var ps, n := s.past.periods, cfg.Tenants();
    var zeros := seq(n, i => 0);
    forall i | 0 <= i < n
      ensures ChargedCycles(s)[i] + zeros[i] == UsedCycles(ps, n)[i] + s.cycles[i]
    {
      ChargesAreConserved(cfg, s, i, Cycles);
    }
    SumZero(zeros);
    SumBalance(ChargedCycles(s), zeros, UsedCycles(ps, n), s.cycles);
    TotalIsSumOfTenants(ps, n);
  }

  // ---------------------------------------------------------------- any window of time

  /** History is only added to. */
  ghost predicate Extends(s: State, s': State) {
    && |s'.past.charged| == |s.past.charged| && s.past.periods <= s'.past.periods
    && forall t :: 0 <= t < |s.past.charged| ==> s.past.charged[t].cycles <= s'.past.charged[t].cycles
  }

  lemma HistoryStep(cfg: Config, s: State, a: Action, s': State)
    requires Next(cfg, s, a, s')
    ensures Extends(s, s')
  {
    if a.WorkerStep? {
      WorkerKeepsPrivate(cfg, s, a);
    } else {
      assert s'.past.charged == s.past.charged;
    }
  }

  lemma ExtendsFurther(cfg: Config, b: seq<State>, acts: seq<Action>, origin: State, k: nat)
    requires Behaviour(cfg, b, acts) && k < |acts| && Extends(origin, b[k])
    ensures Extends(origin, b[k + 1])
  {
    StepAt(cfg, b, acts, k);
    HistoryStep(cfg, b[k], acts[k], b[k + 1]);
  }

  lemma {:induction false} HistoryGrows(cfg: Config, b: seq<State>, acts: seq<Action>, i: nat, j: nat)
    requires Behaviour(cfg, b, acts) && i <= j <= |acts|
    ensures Extends(b[i], b[j])
  {
    if i < j {
      HistoryGrows(cfg, b, acts, i, j - 1);
      ExtendsFurther(cfg, b, acts, b[i], j - 1);
    }
  }

  lemma PrefixIsReachable(cfg: Config, b: seq<State>, acts: seq<Action>, k: nat)
    requires Behaviour(cfg, b, acts) && k <= |acts|
    ensures Reachable(cfg, b[k])
  {
    var b', acts' := b[..k + 1], acts[..k];
    StepsShrink(cfg, b, acts, |acts|, k);
    FirstSteps(cfg, b, acts, k, k);
    assert Behaviour(cfg, b', acts') && b'[|acts'|] == b[k];
  }

  /** No tenant was ever charged 2^64 cycles. */
  ghost predicate CyclesCounted(cfg: Config, s: State) {
    |s.past.charged| == cfg.Tenants() && forall t :: 0 <= t < cfg.Tenants() ==> Counted(s, t, Cycles)
  }

  /** The rollovers completed between two moments are at most one more than the periods that fit in between. */
  lemma RolloversInWindow(cfg: Config, b: seq<State>, acts: seq<Action>, i: nat, j: nat)
    requires Behaviour(cfg, b, acts) && i <= j <= |acts| && Checking(b[i].pc) && Checking(b[j].pc)
    ensures b[j].clock >= b[i].clock && |b[j].past.periods| >= |b[i].past.periods|
    ensures |b[j].past.periods| - |b[i].past.periods| <= (b[j].clock - b[i].clock) / SCHED_PERIOD_CYCLES + 1
  {
    PaceOfWindow(cfg, b, acts, i, j);
    var n, d := |b[j].past.periods| - |b[i].past.periods|, b[j].clock - b[i].clock;
    if n > 0 {
      OneMore(n - 1, SCHED_PERIOD_CYCLES);
      assert (n - 1) * 1800000 <= d;
    }
  }

  /**
    The rate bound for every window of a run between two moments at which no rollover is under
    way: what rollovers collected in it, and what workers charged in it, is bounded by one sum
    of targets for each period that fits in, one more, the budgets at its start and the debts
    at its end.
   */
  lemma WindowRateIsBounded(cfg: Config, b: seq<State>, acts: seq<Action>, i: nat, j: nat)
    requires Behaviour(cfg, b, acts) && i <= j <= |acts| && Checking(b[i].pc) && Checking(b[j].pc)
    requires CyclesCounted(cfg, b[j])
    ensures b[j].clock >= b[i].clock
    ensures var bound := ((b[j].clock - b[i].clock) / SCHED_PERIOD_CYCLES + 1) * Sum(CycleTargets(cfg.initial))
                         + Sum(CycleBudgets(b[i].tenants)) + Sum(Debts(b[j].tenants));
            && TotalUsed(b[j].past.periods) - TotalUsed(b[i].past.periods) <= bound
            && Sum(ChargedCycles(b[j])) - Sum(ChargedCycles(b[i])) <= bound + Sum(b[j].cycles)
  {
    HistoryGrows(cfg, b, acts, i, j);
    PrefixIsReachable(cfg, b, acts, i);
    PrefixIsReachable(cfg, b, acts, j);
    RolloversInWindow(cfg, b, acts, i, j);
    UseBetween(cfg, b[i], b[j], (b[j].clock - b[i].clock) / SCHED_PERIOD_CYCLES + 1);
  }

  lemma UseBetween(cfg: Config, s: State, s': State, most: nat)
    requires Reachable(cfg, s) && Reachable(cfg, s') && Checking(s.pc) && Checking(s'.pc)
    requires Extends(s, s') && CyclesCounted(cfg, s')
    requires |s'.past.periods| - |s.past.periods| <= most
    ensures var bound := most * Sum(CycleTargets(cfg.initial)) + Sum(CycleBudgets(s.tenants)) + Sum(Debts(s'.tenants));
            && TotalUsed(s'.past.periods) - TotalUsed(s.past.periods) <= bound
            && Sum(ChargedCycles(s')) - Sum(ChargedCycles(s)) <= bound + Sum(s'.cycles)
  {
    CountedBefore(cfg, s, s');
    var dropped, dropped' := BooksOfBoth(cfg, s, s');
    CollectedBetween(cfg, s, s', dropped, dropped', most);
    ChargedOfBoth(cfg, s, s');
  }

  lemma ChargedOfBoth(cfg: Config, s: State, s': State)
    requires Reachable(cfg, s) && Reachable(cfg, s') && Checking(s.pc) && Checking(s'.pc)
    requires CyclesCounted(cfg, s) && CyclesCounted(cfg, s')
    ensures Sum(ChargedCycles(s')) == TotalUsed(s'.past.periods) + Sum(s'.cycles)
    ensures Sum(ChargedCycles(s)) >= TotalUsed(s.past.periods)
  {
    TotalCharged(cfg, s);
    TotalCharged(cfg, s');
    SumNonNeg(s.cycles);
  }

  /** The ledger of a moment at which `dropped` has been dropped. */
  ghost predicate Booked(cfg: Config, s: State, dropped: int) {
    TotalUsed(s.past.periods) + dropped + Sum(CycleBudgets(s.tenants))
    == (|s.past.periods| + 1) * Sum(CycleTargets(cfg.initial)) + Sum(Debts(s.tenants))
  }

  lemma CollectedBetween(cfg: Config, s: State, s': State, dropped: int, dropped': int, most: nat)
    requires Booked(cfg, s, dropped) && Booked(cfg, s', dropped') && dropped <= dropped'
    requires |s'.past.periods| - |s.past.periods| <= most
    ensures TotalUsed(s'.past.periods) - TotalUsed(s.past.periods)
            <= most * Sum(CycleTargets(cfg.initial)) + Sum(CycleBudgets(s.tenants)) + Sum(Debts(s'.tenants))
  {
    AllNonNeg(cfg, s, s');
    WindowArithmetic(TotalUsed(s.past.periods), dropped, Sum(CycleBudgets(s.tenants)), Sum(Debts(s.tenants)),
                     |s.past.periods|, TotalUsed(s'.past.periods), dropped', Sum(CycleBudgets(s'.tenants)),
                     Sum(Debts(s'.tenants)), |s'.past.periods|, most, Sum(CycleTargets(cfg.initial)));
  }

  lemma AllNonNeg(cfg: Config, s: State, s': State)
    ensures Sum(CycleTargets(cfg.initial)) >= 0 && Sum(Debts(s.tenants)) >= 0 && Sum(CycleBudgets(s'.tenants)) >= 0
  {
    SumNonNeg(CycleTargets(cfg.initial));
    SumNonNeg(Debts(s.tenants));
    SumNonNeg(CycleBudgets(s'.tenants));
  }

  /** The difference of two ledgers: used, dropped, budgets and debts after `m` and after `n` rollovers. */
  lemma WindowArithmetic(u: int, d: int, b: int, e: int, m: int,
                         u': int, d': int, b': int, e': int, n: int, most: int, targets: int)
    requires u + d + b == (m + 1) * targets + e && u' + d' + b' == (n + 1) * targets + e'
    requires d <= d' && e >= 0 && b' >= 0 && targets >= 0 && n - m <= most
    ensures u' - u <= most * targets + b + e'
  {
    Grow(n + 1, m + 1 + most, targets);
    assert (m + 1 + most) * targets == (m + 1) * targets + most * targets;
  }

  /** The ledger at two moments, with what was dropped until then. */
  lemma BooksOfBoth(cfg: Config, s: State, s': State) returns (dropped: int, dropped': int)
    requires Reachable(cfg, s) && Reachable(cfg, s') && Checking(s.pc) && Checking(s'.pc)
    requires Extends(s, s') && CyclesCounted(cfg, s) && CyclesCounted(cfg, s')
    ensures dropped <= dropped' && Booked(cfg, s, dropped) && Booked(cfg, s', dropped')
  {
    dropped := Books(cfg, s);
    dropped' := Books(cfg, s');
    DroppedGrows(cfg.mode, cfg.initial, s.past.periods, s'.past.periods);
  }

  lemma Books(cfg: Config, s: State) returns (dropped: int)
    requires Reachable(cfg, s) && Checking(s.pc) && CyclesCounted(cfg, s)
    ensures cfg.Valid() && WellFormed(cfg, s)
    ensures dropped == TotalDropped(cfg.mode, cfg.initial, s.past.periods)
    ensures Booked(cfg, s, dropped)
    ensures dropped >= 0 && |s.past.periods| * SCHED_PERIOD_CYCLES <= s.clock - s.past.since
  {
    BetweenRollovers(cfg, s);
    ExactLedger(cfg.mode, cfg.initial, s.past.periods);
    dropped := TotalDropped(cfg.mode, cfg.initial, s.past.periods);
  }

  lemma CountedBefore(cfg: Config, s: State, s': State)
    requires CyclesCounted(cfg, s') && Extends(s, s')
    ensures CyclesCounted(cfg, s)
  {
    forall t | 0 <= t < cfg.Tenants()
      ensures Counted(s, t, Cycles)
    {
      assert Counted(s', t, Cycles);
    }
  }

  // ---------------------------------------------------------------- one tenant alone

  /**
    What a single tenant can take at most, whatever the others leave to it: its target at the
    start, its cap for each rollover, what it owes, and what was not collected yet.
   */
  lemma TenantRateIsBounded(cfg: Config, s: State, i: nat)
    requires Reachable(cfg, s) && Checking(s.pc) && i < cfg.Tenants() && i < |s.past.charged| && Counted(s, i, Cycles)
    ensures WellFormed(cfg, s) && s.clock >= s.past.since
    ensures s.past.charged[i].cycles + s.tenants[i].cycle.budget
            <= cfg.initial[i].cycle.target
               + (s.clock - s.past.since) / SCHED_PERIOD_CYCLES * cfg.initial[i].cycle.cap
               + s.tenants[i].debt + s.cycles[i]
  {
    ReachableInv(cfg, s);
    CollectedFits(cfg, s, i, Cycles);
    ChargesAreConserved(cfg, s, i, Cycles);
    Ceiling(cfg.mode, cfg.initial, s.past.periods, i);
    PeriodsFit(|s.past.periods|, s.clock - s.past.since);
    Grow(|s.past.periods|, (s.clock - s.past.since) / SCHED_PERIOD_CYCLES, cfg.initial[i].cycle.cap);
  }

  lemma PeriodsFit(n: nat, elapsed: int)
    requires n * SCHED_PERIOD_CYCLES <= elapsed
    ensures elapsed >= 0 && n <= elapsed / SCHED_PERIOD_CYCLES
  {
    assert n * 1800000 <= elapsed;
  }
}
