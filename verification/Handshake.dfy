/**
  The status word by which a scheduler wakes one worker: `sch_check_workers` against the
  first-run wait and the sleep path of the worker's handler. Each step is one atomic access.
 */
module Handshake {

  datatype Status = Off | Free | Hang

  /** Where the worker's handler is. */
  datatype WorkerAt =
    | Parked    // not running; an event on its armed queue starts it
    | Entered   // running; a first run is about to load the status
    | Claiming  // saw OFF; about to store FREE
    | Spinning  // in spin_on_status, waiting for HANG
    | Working
    | Armed     // batch done and queue armed; about to store OFF and park

  /** Where the scheduler's pass over the workers is, for this worker. */
  datatype SchedulerAt =
    | Poll                    // about to load the status
    | Send                    // saw OFF; about to send the wakeup
    | StoreHang(woke: bool)   // about to store HANG, after a wakeup or because it saw FREE

  datatype State = State(
    status: Status,
    worker: WorkerAt,
    scheduler: SchedulerAt,
    ready: bool,     // the worker's queue number is known
    firstRun: bool,
    events: nat,     // wakeups delivered and not yet taken
    sleeps: nat,     // times the worker parked, counting its creation
    wakeups: nat,    // wakeups sent
    starts: nat)     // times the handler was started

  datatype Action = Worker | Scheduler | Register

  const INITIAL := State(Off, Parked, Poll, false, true, 0, 1, 0, 0)

  function WorkerStep(s: State): State {
    match s.worker
    case Parked => if s.events > 0 then s.(events := s.events - 1, starts := s.starts + 1, worker := Entered) else s
    case Entered => s.(worker := if !s.firstRun then Working else if s.status == Off then Claiming else Spinning)
    case Claiming => s.(status := Free, worker := Spinning)
    case Spinning => if s.status == Hang then s.(firstRun := false, worker := Working) else s
    case Working => s.(worker := Armed)
    case Armed => s.(status := Off, sleeps := s.sleeps + 1, worker := Parked)
  }

  function SchedulerStep(s: State): State {
    match s.scheduler
    case Poll =>
      if s.status == Off && s.ready then s.(scheduler := Send)
      else if s.status == Free then s.(scheduler := StoreHang(false))
      else s
    case Send => s.(events := s.events + 1, wakeups := s.wakeups + 1, scheduler := StoreHang(true))
    case StoreHang(_) => s.(status := Hang, scheduler := Poll)
  }

  function Step(s: State, a: Action): State {
    match a
    case Worker => WorkerStep(s)
    case Scheduler => SchedulerStep(s)
    case Register => s.(ready := true)
  }

  /** The assumption: the worker does not go back to sleep between the wakeup and the store of HANG. */
  predicate Prompt(s: State, a: Action) {
    a == Worker && s.worker == Armed ==> s.scheduler != StoreHang(true)
  }

  function Exec(s: State, acts: seq<Action>): State {
    if acts == [] then s else Step(Exec(s, acts[..|acts| - 1]), acts[|acts| - 1])
  }

  predicate AllPrompt(s: State, acts: seq<Action>) {
    acts == [] || (AllPrompt(s, acts[..|acts| - 1]) && Prompt(Exec(s, acts[..|acts| - 1]), acts[|acts| - 1]))
  }

  predicate Inv(s: State) {
    && (match s.scheduler
        case Poll =>
          (match s.worker
           case Parked => (s.status == Off && s.events == 0) || (s.status == Hang && s.events == 1)
           case Spinning => s.status != Off && s.events == 0
           case _ => s.status == Hang && s.events == 0)
        case Send => s.worker == Parked && s.status == Off && s.events == 0
        case StoreHang(true) =>
          (match s.worker
           case Parked => s.status == Off && s.events == 1
           case Spinning => s.status == Free && s.events == 0
           case _ => s.status == Off && s.events == 0)
        case StoreHang(false) => s.worker == Spinning && s.status == Free && s.events == 0)
    && (s.worker in {Claiming, Spinning} ==> s.firstRun)
    && (s.worker in {Working, Armed} ==> !s.firstRun)
    && s.wakeups + (if s.worker == Parked && s.events == 0 then 1 else 0) == s.sleeps
    && s.starts + (if s.worker == Parked then 1 else 0) == s.sleeps
  }

  lemma StepKeepsInv(s: State, a: Action)
    requires Inv(s) && Prompt(s, a)
    ensures Inv(Step(s, a))
  {
  }

  lemma {:induction false} RunKeepsInv(acts: seq<Action>)
    requires AllPrompt(INITIAL, acts)
    ensures Inv(Exec(INITIAL, acts))
  {
    if acts != [] {
      var front := acts[..|acts| - 1];
      RunKeepsInv(front);
      StepKeepsInv(Exec(INITIAL, front), acts[|acts| - 1]);
    }
  }

  /**
    In every prompt run each sleep gets exactly one wakeup, each wakeup starts the handler
    once, no sleeping worker is forgotten, and the first-run wait never sees OFF.
   */
  lemma {:induction false} OneWakeupPerSleep(acts: seq<Action>)
    requires AllPrompt(INITIAL, acts)
    ensures var s := Exec(INITIAL, acts);
            && s.wakeups == (if s.worker == Parked && s.events == 0 then s.sleeps - 1 else s.sleeps)
            && s.starts == (if s.worker == Parked then s.sleeps - 1 else s.sleeps)
            && (s.worker == Parked ==> s.events == 1 || (s.status == Off && !s.scheduler.StoreHang?))
            && (s.worker == Spinning ==> s.status != Off)
  {
    RunKeepsInv(acts);
  }

  function SchedulerSteps(acts: seq<Action>): nat {
    if acts == [] then 0
    else SchedulerSteps(acts[..|acts| - 1]) + (if acts[|acts| - 1] == Scheduler then 1 else 0)
  }

  /** Scheduler steps that a waiting first-run worker still needs. */
  function Distance(s: State): nat {
    if s.worker != Spinning || s.status == Hang then 0 else if s.scheduler == Poll then 2 else 1
  }

  /**
    A first-run worker that waits is let go by one more pass of the scheduler over it, even
    when its FREE has overwritten a HANG: after any prompt run with two scheduler steps it
    is no longer waiting or sees HANG, and then its next step ends the wait.
   */
  lemma {:induction false} WaiterIsReleased(s: State, acts: seq<Action>)
    requires Inv(s) && s.worker == Spinning && AllPrompt(s, acts)
    ensures var e := Exec(s, acts);
            && Inv(e) && (e.worker == Spinning || !e.firstRun)
            && Distance(e) <= (if SchedulerSteps(acts) < 2 then 2 - SchedulerSteps(acts) else 0)
    ensures SchedulerSteps(acts) >= 2 ==> Exec(s, acts).worker != Spinning || Exec(s, acts).status == Hang
    ensures SchedulerSteps(acts) >= 2 ==> WorkerStep(Exec(s, acts)).worker != Spinning
  {
    if acts != [] {
      var front, last := acts[..|acts| - 1], acts[|acts| - 1];
      WaiterIsReleased(s, front);
      StepKeepsInv(Exec(s, front), last);
    }
  }

  /** Scheduler steps until a registered sleeper that nobody has noticed yet has its wakeup. */
  function Unnoticed(s: State): nat {
    if s.worker != Parked || s.events > 0 then 0 else if s.scheduler == Poll then 2 else 1
  }

  /**
    A registered worker that sleeps is woken by the next two steps of the scheduler, whatever
    else happens, and starts when it next runs.
   */
  lemma {:induction false} SleeperIsWoken(s: State, acts: seq<Action>)
    requires Inv(s) && s.worker == Parked && s.ready && AllPrompt(s, acts)
    ensures var e := Exec(s, acts);
            && Inv(e) && e.ready && e.starts >= s.starts
            && (e.starts == s.starts ==>
                  && e.worker == Parked
                  && Unnoticed(e) <= (if SchedulerSteps(acts) < 2 then 2 - SchedulerSteps(acts) else 0))
    ensures SchedulerSteps(acts) >= 2 ==> WorkerStep(Exec(s, acts)).starts > s.starts
  {
    if acts != [] {
      var front, last := acts[..|acts| - 1], acts[|acts| - 1];
      SleeperIsWoken(s, front);
      StepKeepsInv(Exec(s, front), last);
    }
  }

  /** A worker whose queue number is not known is left alone: no wakeup, no start, no change of its status. */
  lemma {:induction false} UnregisteredIsLeftAlone(acts: seq<Action>)
    requires Register !in acts
    ensures Exec(INITIAL, acts) == INITIAL && Exec(INITIAL, acts).wakeups == 0
  {
    if acts != [] {
      UnregisteredIsLeftAlone(acts[..|acts| - 1]);
    }
  }

  // ---------------------------------------------------------------- without the assumption

  /** Asleep with HANG stored and no event: nothing will ever start this worker again. */
  predicate Lost(s: State) {
    s.worker == Parked && s.events == 0 && s.status == Hang && s.scheduler == Poll
  }

  lemma {:induction false} LostForever(s: State, acts: seq<Action>)
    requires Lost(s)
    ensures Lost(Exec(s, acts)) && Exec(s, acts).starts == s.starts
  {
    if acts != [] {
      LostForever(s, acts[..|acts| - 1]);
    }
  }

  /** Going to sleep loses the next wakeup exactly when the scheduler is between a wakeup and its store. */
  lemma LostExactlyWhenNotPrompt(s: State, acts: seq<Action>)
    requires Inv(s) && s.worker == Armed
    ensures Lost(SchedulerStep(WorkerStep(s))) <==> !Prompt(s, Worker)
  {
  }

  lemma {:induction false} Snoc(s: State, acts: seq<Action>, a: Action)
    ensures Exec(s, acts + [a]) == Step(Exec(s, acts), a)
  {
    assert (acts + [a])[..|acts|] == acts;
  }

  lemma {:induction false} SnocFour(s: State, acts: seq<Action>, a: Action, b: Action, c: Action, d: Action)
    ensures Exec(s, acts + [a] + [b] + [c] + [d]) == Step(Step(Step(Step(Exec(s, acts), a), b), c), d)
  {
    Snoc(s, acts, a);
    Snoc(s, acts + [a], b);
    Snoc(s, acts + [a] + [b], c);
    Snoc(s, acts + [a] + [b] + [c], d);
  }

  /** A first run in which FREE is overwritten by HANG, and the worker at work. */
  lemma FirstBatch() returns (acts: seq<Action>)
    ensures Exec(INITIAL, acts) == State(Hang, Working, Poll, true, false, 0, 1, 1, 1)
  {
    SnocFour(INITIAL, [], Register, Scheduler, Scheduler, Worker);
    acts := [] + [Register] + [Scheduler] + [Scheduler] + [Worker];
    assert Exec(INITIAL, acts) == State(Off, Entered, StoreHang(true), true, true, 0, 1, 1, 1);
    SnocFour(INITIAL, acts, Worker, Worker, Scheduler, Worker);
    acts := acts + [Worker] + [Worker] + [Scheduler] + [Worker];
  }

  /** It sleeps, and the scheduler has sent the next wakeup and not yet stored HANG. */
  lemma SecondWakeup() returns (acts: seq<Action>)
    ensures Exec(INITIAL, acts) == State(Off, Parked, StoreHang(true), true, false, 1, 2, 2, 1)
  {
    acts := FirstBatch();
    SnocFour(INITIAL, acts, Worker, Worker, Scheduler, Scheduler);
    acts := acts + [Worker] + [Worker] + [Scheduler] + [Scheduler];
  }

  /** Such a run exists: a second batch that ends before the scheduler stores HANG. */
  lemma WakeupCanBeLost()
    ensures exists acts :: Lost(Exec(INITIAL, acts))
  {
    var acts := SecondWakeup();
    SnocFour(INITIAL, acts, Worker, Worker, Worker, Worker);
    var batch := acts + [Worker] + [Worker] + [Worker] + [Worker];
    Snoc(INITIAL, batch, Scheduler);
    assert Lost(Exec(INITIAL, batch + [Scheduler]));
  }
}
