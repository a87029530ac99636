/**
  One scheduler and its workers as an interleaving of atomic steps. Atomics are sequentially
  consistent; budgets, pools and debts are private to the scheduler, so its arithmetic between
  two accesses to shared memory belongs to the step before. The clock is an input.
 */
module Protocol {
  import opened Words
  import opened Budget
  import opened Apportion

  const POLL_LIMIT: nat := 148480
  const BATCH_SIZE: nat := 1048576

  // ---------------------------------------------------------------- workers

  /** Where a worker is in the round-robin and drain loops; `q` is the tenant it serves. */
  datatype Place =
    | Visit(q: nat)                                          // about to load the flag of queue q
    | Head(q: nat, spent: nat)                               // at the head of the drain loop
    | Load(q: nat, spent: nat)                               // about to load the flag again
    | Process(q: nat, spent: nat)                            // flag was clear: processing a packet
    | AddCycles(q: nat, spent: nat, cycles: nat, bytes: nat) // about to charge cycles
    | AddBytes(q: nat, spent: nat, bytes: nat)               // about to charge bytes
    | Asleep

  datatype Worker = Worker(at: Place, packets: nat)

  // ---------------------------------------------------------------- the scheduler

  datatype Control =
    | CheckFlag(t: nat)                // budget check of tenant t: load the flag
    | CheckCycles(t: nat)              // load the cycle counter
    | CheckBytes(t: nat, cycles: nat)  // load the byte counter and compare
    | SetFlag(t: nat, on: Resource)    // store the restriction
    | Clock                            // read the clock
    | TakeCycles(t: nat)               // rollover, pass one: exchange the cycle counter
    | TakeBytes(t: nat, cycles: nat)   // exchange the byte counter and settle
    | Release(t: nat)                  // mode OFF: clear the flag within pass one
    | Clear(t: nat)                    // pass two: clear the flag
    | Pay                              // pay debts

  /** What is remembered of a run only to state properties about it. */
  datatype History = History(
    periods: seq<Period>,  // one for each completed rollover
    charged: seq<Use>,     // everything workers ever charged
    collected: seq<Use>,   // everything exchanges ever returned
    since: nat)            // the clock at initialisation

  datatype State = State(
    // shared
    flags: seq<Restriction>,
    cycles: seq<u64>,
    bytes: seq<u64>,
    // private to each worker
    workers: seq<Worker>,
    // private to the scheduler
    pc: Control,
    tenants: seq<Tenant>,
    seen: seq<Restriction>,  // the flags at the start of the current rollover
    taken: seq<Use>,         // what the current rollover has collected
    pools: Pools,
    next: nat,
    // environment and history
    clock: nat,
    past: History)

  datatype Config = Config(mode: Mode, initial: seq<Tenant>, workers: nat) {
    ghost predicate Valid() {
      initial != [] && AllInitial(initial)
    }

    function Tenants(): nat {
      |initial|
    }
  }

  /** The choices that the environment makes: packets ready, their cost and size, and the clock. */
  datatype Action =
    | WorkerStep(w: nat, ready: bool, cycles: nat, bytes: nat)
    | SchedulerStep
    | Tick(elapsed: nat)
    | Reenter // the scheduler's handler returns and is entered again

  ghost predicate Initially(cfg: Config, s: State) {
    var n := cfg.Tenants();
    && s.flags == seq(n, i => Free) && s.cycles == seq(n, i => 0) && s.bytes == seq(n, i => 0)
    && s.workers == seq(cfg.workers, w => Worker(Asleep, 0))
    && s.pc == CheckFlag(0) && s.tenants == cfg.initial && s.seen == s.flags && s.taken == [] && s.pools == Pools(0, 0)
    && s.next == s.clock + SCHED_PERIOD_CYCLES
    && s.past == History([], seq(n, i => Use(0, 0)), seq(n, i => Use(0, 0)), s.clock)
  }

  // ---------------------------------------------------------------- shapes

  predicate PlaceInRange(p: Place, n: nat) {
    p.Asleep? || p.q < n
  }

  predicate ControlInRange(cfg: Config, s: State) {
    var n := cfg.Tenants();
    match s.pc
    case CheckFlag(t) => t <= n
    case CheckCycles(t) => t < n
    case CheckBytes(t, _) => t < n
    case SetFlag(t, _) => t < n
    case Clock => true
    case TakeCycles(t) => t <= n && |s.taken| == t
    case TakeBytes(t, _) => t < n && |s.taken| == t
    case Release(t) => t < n && |s.taken| == t + 1 && cfg.mode == Off
    case Clear(t) => t <= n && |s.taken| == n && cfg.mode != Off
    case Pay => |s.taken| == n
  }

  ghost predicate WellFormed(cfg: Config, s: State) {
    var n := cfg.Tenants();
    && |s.flags| == |s.cycles| == |s.bytes| == |s.tenants| == |s.seen| == n
    && |s.past.charged| == |s.past.collected| == n
    && AllFit(n, s.past.periods)
    && |s.workers| == cfg.workers
    && (forall w :: 0 <= w < |s.workers| ==> PlaceInRange(s.workers[w].at, n))
    && ControlInRange(cfg, s)
  }

  // ---------------------------------------------------------------- steps

  function NextQueue(q: nat, n: nat): nat {
    if q + 1 < n then q + 1 else 0
  }

  /** A worker moves without touching shared memory. */
  function Moved(s: State, w: nat, to: Place): State
    requires w < |s.workers|
  {
    s.(workers := s.workers[w := s.workers[w].(at := to)])
  }

  function Charge(us: seq<Use>, q: nat, cycles: nat, bytes: nat): (r: seq<Use>)
    requires q < |us|
    ensures |r| == |us|
  {
    us[q := Use(us[q].cycles + cycles, us[q].bytes + bytes)]
  }

  /** One step of `flexio_pp_dev_32` and `WORKER_DRAIN_QUEUE`. */
  function WorkerNext(cfg: Config, s: State, a: Action): State
    requires a.WorkerStep? && a.w < |s.workers|
    requires |s.flags| == |s.cycles| == |s.bytes| == |s.past.charged| == cfg.Tenants()
    requires PlaceInRange(s.workers[a.w].at, cfg.Tenants())
  {
    var w, n := a.w, cfg.Tenants();
    match s.workers[w].at
    case Visit(q) =>
      Moved(s, w, if s.flags[q].Bound? || !a.ready then Visit(NextQueue(q, n)) else Head(q, 0))
    case Head(q, spent) =>
      Moved(s, w, if spent < POLL_LIMIT && a.ready then Load(q, spent) else Visit(NextQueue(q, n)))
    case Load(q, spent) =>
      Moved(s, w, if s.flags[q].Bound? then Visit(NextQueue(q, n)) else Process(q, spent))
    case Process(q, spent) =>
      Moved(s, w, AddCycles(q, spent + a.cycles, a.cycles, a.bytes))
    case AddCycles(q, spent, cycles, bytes) =>
      Moved(s, w, AddBytes(q, spent, bytes)).(
        cycles := s.cycles[q := Wrap64(s.cycles[q] + cycles)],
        past := s.past.(charged := Charge(s.past.charged, q, cycles, 0)))
    case AddBytes(q, spent, bytes) =>
      var packets := s.workers[w].packets + 1;
      s.(workers := s.workers[w := Worker(if packets >= BATCH_SIZE then Asleep else Head(q, spent), packets)],
         bytes := s.bytes[q := Wrap64(s.bytes[q] + bytes)],
         past := s.past.(charged := Charge(s.past.charged, q, 0, bytes)))
    case Asleep =>
      // the next invocation of the handler
      s.(workers := s.workers[w := Worker(Visit(0), 0)])
  }

  /** What pass one adds to the pools for tenant `t`. */
  function Added(mode: Mode, pools: Pools, t: Tenant, f: Restriction, u: Use): Pools {
    Pools(pools.cycle + Offer(mode, t.cycle, f == Bound(Cycles), u.cycles),
          pools.bw + Offer(mode, t.bw, f == Bound(Bytes), u.bytes))
  }

  /** One step of the loop in `flexio_scheduler_handle`. */
  function SchedulerNext(cfg: Config, s: State): State
    requires |s.flags| == |s.cycles| == |s.bytes| == |s.tenants| == |s.seen| == |s.past.collected| == cfg.Tenants()
    requires ControlInRange(cfg, s)
  {
    var n := cfg.Tenants();
    match s.pc
    case CheckFlag(t) =>
      s.(pc := if t == n then Clock else if s.flags[t].Bound? then CheckFlag(t + 1) else CheckCycles(t))
    case CheckCycles(t) =>
      s.(pc := CheckBytes(t, s.cycles[t]))
    case CheckBytes(t, cycles) =>
      var f := CheckedFlag(s.tenants[t], Use(cycles, s.bytes[t]));
      s.(pc := if f.Bound? then SetFlag(t, f.on) else CheckFlag(t + 1))
    case SetFlag(t, r) =>
      s.(flags := s.flags[t := Bound(r)], pc := CheckFlag(t + 1))
    case Clock =>
      if s.clock >= s.next then
        s.(next := s.clock + SCHED_PERIOD_CYCLES, seen := s.flags, taken := [], pools := Pools(0, 0),
           pc := TakeCycles(0))
      else
        s.(pc := CheckFlag(0))
    case TakeCycles(t) =>
      if t == n then
        s.(tenants := Shared(cfg.mode, s.tenants, s.seen, s.pools), pc := if cfg.mode == Off then Pay else Clear(0))
      else
        s.(cycles := s.cycles[t := 0], pc := TakeBytes(t, s.cycles[t]),
           past := s.past.(collected := Charge(s.past.collected, t, s.cycles[t], 0)))
    case TakeBytes(t, cycles) =>
      var u := Use(cycles, s.bytes[t]);
      s.(bytes := s.bytes[t := 0],
         tenants := s.tenants[t := Settled(cfg.mode, s.tenants[t], s.flags[t], u)],
         pools := Added(cfg.mode, s.pools, s.tenants[t], s.flags[t], u),
         taken := s.taken + [u],
         pc := if cfg.mode == Off then Release(t) else TakeCycles(t + 1),
         past := s.past.(collected := Charge(s.past.collected, t, 0, s.bytes[t])))
    case Release(t) =>
      s.(flags := s.flags[t := Free], pc := TakeCycles(t + 1))
    case Clear(t) =>
      if t == n then s.(pc := Pay) else s.(flags := s.flags[t := Free], pc := Clear(t + 1))
    case Pay =>
      s.(tenants := PaidAll(s.tenants), pc := CheckFlag(0),
         past := s.past.(periods := s.past.periods + [Period(s.seen, s.taken)]))
  }

  ghost predicate Enabled(cfg: Config, s: State, a: Action) {
    match a
    case WorkerStep(w, _, _, _) => w < |s.workers|
    case SchedulerStep => true
    case Tick(_) => true
    case Reenter => s.pc == CheckFlag(0)
  }

  function Apply(cfg: Config, s: State, a: Action): State
    requires WellFormed(cfg, s) && Enabled(cfg, s, a)
  {
    match a
    case WorkerStep(_, _, _, _) => WorkerNext(cfg, s, a)
    case SchedulerStep => SchedulerNext(cfg, s)
    case Tick(elapsed) => s.(clock := s.clock + elapsed)
    case Reenter => s.(next := s.clock + SCHED_PERIOD_CYCLES)
  }

  lemma WorkerStaysWellFormed(cfg: Config, s: State, a: Action)
    requires WellFormed(cfg, s) && Enabled(cfg, s, a) && a.WorkerStep? && cfg.initial != []
    ensures WellFormed(cfg, WorkerNext(cfg, s, a))
  {
  }

  lemma SchedulerStaysWellFormed(cfg: Config, s: State)
    requires WellFormed(cfg, s) && cfg.initial != []
    ensures WellFormed(cfg, SchedulerNext(cfg, s))
  {
    if Checking(s.pc) {
      CheckStaysWellFormed(cfg, s);
    } else if s.pc.TakeCycles? || s.pc.TakeBytes? {
      CollectStaysWellFormed(cfg, s);
    } else {
      FinishStaysWellFormed(cfg, s);
    }
  }

  lemma CheckStaysWellFormed(cfg: Config, s: State)
    requires WellFormed(cfg, s) && cfg.initial != [] && Checking(s.pc)
    ensures WellFormed(cfg, SchedulerNext(cfg, s))
  {
    assert SchedulerNext(cfg, s).past == s.past;
  }

  lemma CollectStaysWellFormed(cfg: Config, s: State)
    requires WellFormed(cfg, s) && cfg.initial != [] && (s.pc.TakeCycles? || s.pc.TakeBytes?)
    ensures WellFormed(cfg, SchedulerNext(cfg, s))
  {
    assert SchedulerNext(cfg, s).past.periods == s.past.periods;
  }

  lemma FinishStaysWellFormed(cfg: Config, s: State)
    requires WellFormed(cfg, s) && cfg.initial != [] && (s.pc.Release? || s.pc.Clear? || s.pc.Pay?)
    ensures WellFormed(cfg, SchedulerNext(cfg, s))
  {
    assert SchedulerNext(cfg, s).workers == s.workers;
  }

  lemma StaysWellFormed(cfg: Config, s: State, a: Action)
    requires WellFormed(cfg, s) && Enabled(cfg, s, a) && cfg.initial != []
    ensures WellFormed(cfg, Apply(cfg, s, a))
  {
    if a.WorkerStep? {
      WorkerStaysWellFormed(cfg, s, a);
    } else if a.SchedulerStep? {
      SchedulerStaysWellFormed(cfg, s);
    }
  }

  // ---------------------------------------------------------------- runs

  ghost predicate Behaviour(cfg: Config, b: seq<State>, acts: seq<Action>) {
    && cfg.Valid() && |b| == |acts| + 1
    && Initially(cfg, b[0])
    && Steps(cfg, b, acts, |acts|)
  }

  /** Each of the first `n` actions takes one state of `b` to the next. */
  ghost predicate Steps(cfg: Config, b: seq<State>, acts: seq<Action>, n: nat)
    requires |b| == |acts| + 1 && n <= |acts|
  {
    n == 0 || (Steps(cfg, b, acts, n - 1) && Next(cfg, b[n - 1], acts[n - 1], b[n]))
  }

  lemma {:induction false} StepAmong(cfg: Config, b: seq<State>, acts: seq<Action>, n: nat, k: nat)
    requires |b| == |acts| + 1 && k < n <= |acts| && Steps(cfg, b, acts, n)
    ensures Next(cfg, b[k], acts[k], b[k + 1])
  {
    if k < n - 1 {
      StepAmong(cfg, b, acts, n - 1, k);
    }
  }

  lemma StepAt(cfg: Config, b: seq<State>, acts: seq<Action>, k: nat)
    requires Behaviour(cfg, b, acts) && k < |acts|
    ensures Next(cfg, b[k], acts[k], b[k + 1])
  {
    StepAmong(cfg, b, acts, |acts|, k);
  }

  lemma {:induction false} FirstSteps(cfg: Config, b: seq<State>, acts: seq<Action>, n: nat, k: nat)
    requires |b| == |acts| + 1 && n <= k <= |acts| && Steps(cfg, b, acts, k)
    ensures Steps(cfg, b[..k + 1], acts[..k], n)
  {
    if n > 0 {
      FirstSteps(cfg, b, acts, n - 1, k);
      StepAmong(cfg, b, acts, k, n - 1);
    }
  }

  lemma {:induction false} StepsShrink(cfg: Config, b: seq<State>, acts: seq<Action>, n: nat, k: nat)
    requires |b| == |acts| + 1 && k <= n <= |acts| && Steps(cfg, b, acts, n)
    ensures Steps(cfg, b, acts, k)
  {
    if k < n {
      StepsShrink(cfg, b, acts, n - 1, k);
    }
  }

  ghost predicate Next(cfg: Config, s: State, a: Action, s': State) {
    WellFormed(cfg, s) && Enabled(cfg, s, a) && s' == Apply(cfg, s, a)
  }

  ghost predicate Reachable(cfg: Config, s: State) {
    exists b, acts :: Behaviour(cfg, b, acts) && b[|acts|] == s
  }

  /** Between rollovers: the scheduler checks budgets or reads the clock. */
  predicate Checking(pc: Control) {
    pc.CheckFlag? || pc.CheckCycles? || pc.CheckBytes? || pc.SetFlag? || pc.Clock?
  }
}
