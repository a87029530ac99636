/** What the scheduler does in time: every tenant that has used up a budget is caught, and rollovers come when due. */
module Enforcement {
  import opened Words
  import opened Budget
  import opened Protocol
  import opened Interleaving
  import opened Collection
  import opened Guarantees
  import opened RateLaws

  // ---------------------------------------------------------------- what the check reads

  /** The step that moves the check from tenant `t` to the next. */
  predicate MovesPast(s: State, s': State, t: nat) {
    s'.pc == CheckFlag(t + 1) && s.pc != s'.pc
  }

  lemma PassedOver(cfg: Config, s: State, s': State, t: nat)
    requires Next(cfg, s, SchedulerStep, s') && MovesPast(s, s', t)
    ensures t < |s.flags| == |s'.flags| == |s.tenants| == |s.bytes|
    ensures s'.flags[t].Bound?
            || (s.pc.CheckBytes? && s.pc.t == t
                && s.pc.cycles < s.tenants[t].cycle.budget && s.bytes[t] < s.tenants[t].bw.budget)
  {
  }

  /** The flag that the check stores: bandwidth if its budget is used up, and else cycles. */
  lemma StoredFlag(cfg: Config, s: State, s': State)
    requires Next(cfg, s, SchedulerStep, s') && s.pc.CheckBytes?
    ensures s.pc.t < |s.tenants| == |s.bytes|
    ensures s'.pc == var t := s.pc.t;
                     if s.bytes[t] >= s.tenants[t].bw.budget then SetFlag(t, Bytes)
                     else if s.pc.cycles >= s.tenants[t].cycle.budget then SetFlag(t, Cycles)
                     else CheckFlag(t + 1)
  {
  }

  /** The cycle count that the check compares is what the counter held at an earlier step of the same check. */
  predicate ReadAt(s: State, s': State) {
    && s'.pc.CheckBytes? && s.pc == CheckCycles(s'.pc.t)
    && s.pc.t < |s.cycles| && s'.pc.cycles == s.cycles[s.pc.t] && s.tenants == s'.tenants
  }

  lemma ReadStep(cfg: Config, s: State, a: Action, s': State)
    requires Next(cfg, s, a, s') && s'.pc.CheckBytes?
    ensures ReadAt(s, s') || (s.pc == s'.pc && s.tenants == s'.tenants)
  {
    if a.WorkerStep? {
      WorkerKeepsPrivate(cfg, s, a);
    }
  }

  lemma {:induction false} ValueWasRead(cfg: Config, b: seq<State>, acts: seq<Action>, k: nat) returns (j: nat)
    requires Behaviour(cfg, b, acts) && k <= |acts| && b[k].pc.CheckBytes?
    ensures j < k && ReadAt(b[j], b[k])
  {
    assert k > 0;
    StepAt(cfg, b, acts, k - 1);
    ReadStep(cfg, b[k - 1], acts[k - 1], b[k]);
    if ReadAt(b[k - 1], b[k]) {
      j := k - 1;
    } else {
      j := ValueWasRead(cfg, b, acts, k - 1);
    }
  }

  /**
    Whenever the check moves past a tenant, the tenant is restricted, or both values that were
    read for it were below its budgets.
   */
  lemma NoneIsPassedOver(cfg: Config, b: seq<State>, acts: seq<Action>, k: nat, t: nat)
    requires Behaviour(cfg, b, acts) && k < |acts| && acts[k].SchedulerStep? && MovesPast(b[k], b[k + 1], t)
    ensures t < |b[k].tenants| == |b[k].bytes| == |b[k + 1].flags|
    ensures b[k + 1].flags[t].Bound?
            || (b[k].bytes[t] < b[k].tenants[t].bw.budget
                && exists j :: 0 <= j < k && ReadAt(b[j], b[k]) && b[j].pc.t == t
                               && b[j].cycles[t] < b[k].tenants[t].cycle.budget)
  {
    StepAt(cfg, b, acts, k);
    PassedOver(cfg, b[k], b[k + 1], t);
    if !b[k + 1].flags[t].Bound? {
      var j := ValueWasRead(cfg, b, acts, k);
    }
  }

  // ---------------------------------------------------------------- a whole pass

  predicate UsedUp(s: State, t: nat)
    requires t < |s.cycles| && t < |s.bytes| && t < |s.tenants|
  {
    s.cycles[t] >= s.tenants[t].cycle.budget || s.bytes[t] >= s.tenants[t].bw.budget
  }

  /** The check is done with tenant `t`. */
  predicate Past(pc: Control, t: nat) {
    match pc
    case CheckFlag(u) => u > t
    case CheckCycles(u) => u > t
    case CheckBytes(u, _) => u > t
    case SetFlag(u, _) => u > t
    case _ => true
  }

  /** Since `origin`, where a pass of the check began: counters have only grown, and if done with, `t` is caught. */
  ghost predicate Closing(cfg: Config, origin: State, s: State, t: nat) {
    && WellFormed(cfg, origin) && WellFormed(cfg, s) && t < cfg.Tenants()
    && Checking(s.pc) && s.tenants == origin.tenants
    && (AllCounted(s, t) ==>
          && s.cycles[t] >= origin.cycles[t] && s.bytes[t] >= origin.bytes[t]
          && (s.pc.CheckBytes? && s.pc.t == t ==> s.pc.cycles >= origin.cycles[t])
          && (Past(s.pc, t) ==> s.flags[t].Bound?))
  }

  /** This step does not end a pass of the check. */
  predicate SamePass(s: State, a: Action) {
    !(a.SchedulerStep? && s.pc.Clock?)
  }

  lemma ClosingWorker(cfg: Config, origin: State, s: State, a: Action, s': State, t: nat)
    requires cfg.Valid() && Inv(cfg, s) && Next(cfg, s, a, s') && SamePass(s, a) && a.WorkerStep?
    requires WellFormed(cfg, s') && Closing(cfg, origin, s, t)
    ensures Closing(cfg, origin, s', t)
  {
    WorkerKeepsPrivate(cfg, s, a);
    LiveGrows(cfg, s, a, t, Cycles);
    LiveGrows(cfg, s, a, t, Bytes);
  }

  lemma ClosingScheduler(cfg: Config, origin: State, s: State, s': State, t: nat)
    requires Next(cfg, s, SchedulerStep, s') && SamePass(s, SchedulerStep)
    requires WellFormed(cfg, s') && Closing(cfg, origin, s, t)
    requires UsedUp(origin, t)
    ensures Closing(cfg, origin, s', t)
  {
    assert s'.cycles == s.cycles && s'.bytes == s.bytes && s'.past == s.past;
  }

  lemma ClosingStep(cfg: Config, b: seq<State>, acts: seq<Action>, origin: State, k: nat, t: nat)
    requires Behaviour(cfg, b, acts) && k < |acts| && SamePass(b[k], acts[k])
    requires Closing(cfg, origin, b[k], t) && UsedUp(origin, t)
    ensures Closing(cfg, origin, b[k + 1], t)
  {
    StepAt(cfg, b, acts, k);
    BehaviourInv(cfg, b, acts, k);
    BehaviourInv(cfg, b, acts, k + 1);
    if acts[k].WorkerStep? {
      ClosingWorker(cfg, origin, b[k], acts[k], b[k + 1], t);
    } else if acts[k].SchedulerStep? {
      ClosingScheduler(cfg, origin, b[k], b[k + 1], t);
    } else {
      ClosingTime(cfg, origin, b[k], acts[k], b[k + 1], t);
    }
  }

  lemma ClosingTime(cfg: Config, origin: State, s: State, a: Action, s': State, t: nat)
    requires Next(cfg, s, a, s') && SamePass(s, a) && (a.Tick? || a.Reenter?)
    requires WellFormed(cfg, s') && Closing(cfg, origin, s, t)
    ensures Closing(cfg, origin, s', t)
  {
  }

  /** The steps from moment `i` to moment `j` all belong to one pass of the check. */
  predicate OnePass(b: seq<State>, acts: seq<Action>, i: nat, j: nat)
    requires |b| == |acts| + 1 && i <= j <= |acts|
  {
    i == j || (OnePass(b, acts, i, j - 1) && SamePass(b[j - 1], acts[j - 1]))
  }

  lemma {:induction false} PassCloses(cfg: Config, b: seq<State>, acts: seq<Action>, origin: State,
                                      i: nat, j: nat, t: nat)
    requires Behaviour(cfg, b, acts) && i <= j <= |acts| && OnePass(b, acts, i, j)
    requires Closing(cfg, origin, b[i], t) && UsedUp(origin, t)
    ensures Closing(cfg, origin, b[j], t)
  {
    if i < j {
      PassCloses(cfg, b, acts, origin, i, j - 1, t);
      ClosingStep(cfg, b, acts, origin, j - 1, t);
    }
  }

  /**
    Enforcement. A tenant that has used up its cycles or its bytes when a pass of the check
    begins is restricted when the pass ends, whatever the workers do in between.
   */
  lemma {:induction false} OveruseIsCaught(cfg: Config, b: seq<State>, acts: seq<Action>, i: nat, j: nat, t: nat)
    requires Behaviour(cfg, b, acts) && i <= j <= |acts| && t < cfg.Tenants()
    requires b[i].pc == CheckFlag(0) && b[j].pc == Clock
    requires OnePass(b, acts, i, j)
    requires WellFormed(cfg, b[i]) && WellFormed(cfg, b[j]) && AllCounted(b[j], t)
    requires b[i].cycles[t] >= b[i].tenants[t].cycle.budget || b[i].bytes[t] >= b[i].tenants[t].bw.budget
    ensures b[j].flags[t].Bound?
  {
    PassCloses(cfg, b, acts, b[i], i, j, t);
  }

  // ---------------------------------------------------------------- rollovers come when due

  /** A period after the last time a rollover began or the handler was entered. */
  function Deadline(b: seq<State>, acts: seq<Action>, k: nat): nat
    requires |b| == |acts| + 1 && k <= |acts|
  {
    if k == 0 then b[0].clock + 1_800_000
    else if acts[k - 1].Reenter? || (b[k - 1].pc == Clock && b[k].pc == TakeCycles(0)) then b[k - 1].clock + 1_800_000
    else Deadline(b, acts, k - 1)
  }

  lemma {:induction false} DeadlineIsKept(cfg: Config, b: seq<State>, acts: seq<Action>, k: nat)
    requires Behaviour(cfg, b, acts) && k <= |acts|
    ensures b[k].next == Deadline(b, acts, k)
  {
    if k > 0 {
      DeadlineIsKept(cfg, b, acts, k - 1);
      DeadlineStep(cfg, b, acts, k - 1);
    }
  }

  lemma {:induction false} DeadlineStep(cfg: Config, b: seq<State>, acts: seq<Action>, k: nat)
    requires Behaviour(cfg, b, acts) && k < |acts| && b[k].next == Deadline(b, acts, k)
    ensures b[k + 1].next == Deadline(b, acts, k + 1)
  {
    StepAt(cfg, b, acts, k);
    NextMoves(cfg, b[k], acts[k], b[k + 1]);
  }

  lemma NextMoves(cfg: Config, s: State, a: Action, s': State)
    requires Next(cfg, s, a, s')
    ensures s'.next == if a.Reenter? || (s.pc == Clock && s'.pc == TakeCycles(0)) then s.clock + 1_800_000 else s.next
  {
    if a.WorkerStep? {
      WorkerKeepsPrivate(cfg, s, a);
    }
  }

  /** When the scheduler has read the clock, a rollover begins if it is due, and only then. */
  lemma RolloverWhenDue(cfg: Config, b: seq<State>, acts: seq<Action>, k: nat)
    requires Behaviour(cfg, b, acts) && k < |acts| && acts[k].SchedulerStep? && b[k].pc == Clock
    ensures b[k + 1].pc == TakeCycles(0) <==> b[k].clock >= Deadline(b, acts, k)
  {
    DeadlineIsKept(cfg, b, acts, k);
    StepAt(cfg, b, acts, k);
  }
}
