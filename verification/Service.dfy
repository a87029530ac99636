/** What workers do for the tenants: every packet is charged what it cost, and every tenant gets its turn. */
module Service {
  import opened Words
  import opened Budget
  import opened RunLaws
  import opened Protocol
  import opened Interleaving
  import opened Collection
  import opened Guarantees
  import opened RateLaws
  import Ring

  // ---------------------------------------------------------------- every packet is charged

  /** What the packet costs that is processed for tenant `t` in this step, if there is one. */
  function Packet(s: State, a: Action, t: nat, r: Resource): nat {
    if a.WorkerStep? && a.w < |s.workers| && s.workers[a.w].at.Process? && s.workers[a.w].at.q == t
    then (if r == Cycles then a.cycles else a.bytes)
    else 0
  }

  /** What the packets cost that were processed for tenant `t` in the first `k` steps. */
  function Processed(b: seq<State>, acts: seq<Action>, t: nat, r: Resource, k: nat): nat
    requires |b| == |acts| + 1 && k <= |acts|
  {
    if k == 0 then 0 else Processed(b, acts, t, r, k - 1) + Packet(b[k - 1], acts[k - 1], t, r)
  }

  /** What worker `w` has processed for tenant `t` and not charged yet. */
  function HeldBack(w: Worker, t: nat, r: Resource): nat {
    match w.at
    case AddCycles(q, _, cycles, bytes) => if q != t then 0 else if r == Cycles then cycles else bytes
    case AddBytes(q, _, bytes) => if q == t && r == Bytes then bytes else 0
    case _ => 0
  }

  function AllHeldBack(s: State, t: nat, r: Resource): (xs: seq<nat>)
    ensures |xs| == |s.workers|
  {
    seq(|s.workers|, w requires 0 <= w < |s.workers| => HeldBack(s.workers[w], t, r))
  }

  lemma ChargeOfWorker(cfg: Config, s: State, a: Action, t: nat, r: Resource)
    requires WellFormed(cfg, s) && Enabled(cfg, s, a) && a.WorkerStep? && t < cfg.Tenants()
    ensures var s' := WorkerNext(cfg, s, a);
            && s'.workers == s.workers[a.w := s'.workers[a.w]] && |s'.past.charged| == cfg.Tenants()
            && s'.past.charged[t].Of(r) + HeldBack(s'.workers[a.w], t, r)
               == s.past.charged[t].Of(r) + HeldBack(s.workers[a.w], t, r) + Packet(s, a, t, r)
  {
  }

  lemma ChargedStep(cfg: Config, s: State, a: Action, s': State, t: nat, r: Resource)
    requires Next(cfg, s, a, s') && t < cfg.Tenants()
    ensures |s.past.charged| == |s'.past.charged| == cfg.Tenants()
    ensures s'.past.charged[t].Of(r) + Sum(AllHeldBack(s', t, r))
            == s.past.charged[t].Of(r) + Sum(AllHeldBack(s, t, r)) + Packet(s, a, t, r)
  {
    if a.WorkerStep? {
      ChargeOfWorker(cfg, s, a, t, r);
      var left := HeldBack(s'.workers[a.w], t, r);
      assert AllHeldBack(s', t, r) == AllHeldBack(s, t, r)[a.w := left];
      SumUpdate(AllHeldBack(s, t, r), a.w, left);
    } else {
      assert s'.workers == s.workers && AllHeldBack(s', t, r) == AllHeldBack(s, t, r);
    }
  }

  lemma NothingHeldBack(cfg: Config, s: State, t: nat, r: Resource)
    requires cfg.Valid() && Initially(cfg, s) && t < cfg.Tenants()
    ensures s.past.charged[t].Of(r) == 0 == Sum(AllHeldBack(s, t, r))
  {
    SumZero(AllHeldBack(s, t, r));
  }

  /** What was charged to a tenant is what its packets cost, but for the packets being charged right now. */
  lemma {:induction false} ChargedIsProcessed(cfg: Config, b: seq<State>, acts: seq<Action>,
                                              t: nat, r: Resource, k: nat)
    requires Behaviour(cfg, b, acts) && k <= |acts| && t < cfg.Tenants()
    ensures |b[k].past.charged| == cfg.Tenants()
    ensures Processed(b, acts, t, r, k) == b[k].past.charged[t].Of(r) + Sum(AllHeldBack(b[k], t, r))
  {
    if k == 0 {
      NothingHeldBack(cfg, b[0], t, r);
    } else {
      ChargedIsProcessed(cfg, b, acts, t, r, k - 1);
      StepAt(cfg, b, acts, k - 1);
      ChargedStep(cfg, b[k - 1], acts[k - 1], b[k], t, r);
    }
  }

  /**
    No packet is free and none is paid twice. In every run, what the packets of a tenant cost
    was collected by rollovers, is in the hands of the current one, is in the counter, or is
    about to be added to it.
   */
  lemma {:induction false} EveryPacketIsPaid(cfg: Config, b: seq<State>, acts: seq<Action>, t: nat, r: Resource, k: nat)
    requires Behaviour(cfg, b, acts) && k <= |acts| && t < cfg.Tenants()
    requires t < |b[k].past.charged| && Counted(b[k], t, r)
    ensures WellFormed(cfg, b[k])
    ensures Processed(b, acts, t, r, k)
            == UsedBy(b[k].past.periods, t, r) + InHand(b[k], t, r) + Live(b[k], t, r) + Sum(AllHeldBack(b[k], t, r))
  {
    PrefixIsReachable(cfg, b, acts, k);
    ChargesAreConserved(cfg, b[k], t, r);
    ChargedIsProcessed(cfg, b, acts, t, r, k);
  }

  // ---------------------------------------------------------------- every tenant gets its turn

  /** Steps of worker `w` between two moments. */
  function StepsOf(acts: seq<Action>, w: nat, i: nat, j: nat): nat
    requires i <= j <= |acts|
  {
    if i == j then 0 else StepsOf(acts, w, i, j - 1) + (if IsStepOf(acts[j - 1], w) then 1 else 0)
  }

  predicate IsStepOf(a: Action, w: nat) {
    a.WorkerStep? && a.w == w
  }

  /** A worker is moved by its own steps only. */
  lemma OthersLeaveIt(cfg: Config, s: State, a: Action, s': State, w: nat)
    requires Next(cfg, s, a, s') && !IsStepOf(a, w) && w < |s.workers|
    ensures |s'.workers| == |s.workers| && s'.workers[w] == s.workers[w]
  {
  }

  lemma NextTurn(q: nat, m: nat, n: nat)
    requires n > 0
    ensures (q + m + 1) % n == if (q + m) % n + 1 < n then (q + m) % n + 1 else 0
  {
    var turns, x := (q + m) / n, (q + m) % n;
    assert q + m == turns * n + x;
    if x + 1 < n {
      Ring.DivMod(q + m + 1, n, turns, x + 1);
    } else {
      assert (turns + 1) * n == turns * n + n;
      Ring.DivMod(q + m + 1, n, turns + 1, 0);
    }
  }

  /** The worker is at the `m`-th tenant after `q`. */
  predicate Visits(s: State, w: nat, n: nat, q: nat, m: nat)
    requires n > 0
  {
    w < |s.workers| && s.workers[w].at == Visit((q + m) % n)
  }

  lemma VisitStep(cfg: Config, s: State, a: Action, s': State, w: nat, q: nat, m: nat)
    requires Next(cfg, s, a, s') && cfg.Tenants() > 0 && Visits(s, w, cfg.Tenants(), q, m)
    requires IsStepOf(a, w) ==> !a.ready
    ensures Visits(s', w, cfg.Tenants(), q, if IsStepOf(a, w) then m + 1 else m)
  {
    if IsStepOf(a, w) {
      NextTurn(q, m, cfg.Tenants());
    } else {
      OthersLeaveIt(cfg, s, a, s', w);
    }
  }

  /** A worker that finds nothing to do goes round all tenants in order, for ever. */
  lemma {:induction false} IdleWorkerGoesRound(cfg: Config, b: seq<State>, acts: seq<Action>,
                                               w: nat, q: nat, i: nat, j: nat)
    requires Behaviour(cfg, b, acts) && i <= j <= |acts| && q < cfg.Tenants()
    requires w < |b[i].workers| && b[i].workers[w].at == Visit(q)
    requires forall k :: i <= k < j && IsStepOf(acts[k], w) ==> !acts[k].ready
    ensures Visits(b[j], w, cfg.Tenants(), q, StepsOf(acts, w, i, j))
  {
    if i < j {
      IdleWorkerGoesRound(cfg, b, acts, w, q, i, j - 1);
      StepAt(cfg, b, acts, j - 1);
      VisitStep(cfg, b[j - 1], acts[j - 1], b[j], w, q, StepsOf(acts, w, i, j - 1));
    } else {
      Ring.DivMod(q, cfg.Tenants(), 0, q);
    }
  }

  /** The way of a worker to a packet: `m` steps after it visits a tenant that is free and has packets. */
  function WayToPacket(q: nat, m: nat): Place {
    match m
    case 0 => Visit(q)
    case 1 => Head(q, 0)
    case 2 => Load(q, 0)
    case _ => Process(q, 0)
  }

  lemma ServiceStep(cfg: Config, s: State, a: Action, s': State, w: nat, q: nat, m: nat)
    requires Next(cfg, s, a, s') && w < |s.workers| && q < cfg.Tenants() && s.flags[q].Free?
    requires s.workers[w].at == WayToPacket(q, m) && (IsStepOf(a, w) ==> a.ready && m < 3)
    ensures |s'.workers| == |s.workers|
    ensures s'.workers[w].at == WayToPacket(q, if IsStepOf(a, w) then m + 1 else m)
  {
    if !IsStepOf(a, w) {
      OthersLeaveIt(cfg, s, a, s', w);
    }
  }

  /** A tenant that is not restricted and has packets is served when its turn comes: three steps later a packet is. */
  lemma {:induction false} FreeTenantIsServed(cfg: Config, b: seq<State>, acts: seq<Action>,
                                              w: nat, q: nat, i: nat, j: nat)
    requires Behaviour(cfg, b, acts) && i <= j <= |acts| && w < |b[i].workers| && q < cfg.Tenants()
    requires b[i].workers[w].at == Visit(q) && StepsOf(acts, w, i, j) <= 3
    requires forall k :: i <= k < j ==> q < |b[k].flags| && b[k].flags[q].Free?
    requires forall k :: i <= k < j && IsStepOf(acts[k], w) ==> acts[k].ready
    ensures w < |b[j].workers| && b[j].workers[w].at == WayToPacket(q, StepsOf(acts, w, i, j))
    ensures StepsOf(acts, w, i, j) == 3 ==> b[j].workers[w].at == Process(q, 0)
  {
    if i < j {
      FreeTenantIsServed(cfg, b, acts, w, q, i, j - 1);
      StepAt(cfg, b, acts, j - 1);
      ServiceStep(cfg, b[j - 1], acts[j - 1], b[j], w, q, StepsOf(acts, w, i, j - 1));
    }
  }

  // ---------------------------------------------------------------- how long a turn lasts

  /** Where a worker goes from the head of the drain loop. */
  lemma DrainsUntilLimit(cfg: Config, s: State, a: Action, s': State, q: nat, spent: nat)
    requires Next(cfg, s, a, s') && a.WorkerStep? && s.workers[a.w].at == Head(q, spent)
    ensures a.w < |s'.workers|
    ensures s'.workers[a.w].at == Load(q, spent) <==> spent < 148_480 && a.ready
    ensures s'.workers[a.w].at != Load(q, spent) ==>
              s'.workers[a.w].at == Visit(if q + 1 < cfg.Tenants() then q + 1 else 0)
  {
  }

  /** The cycles of the packets that worker `w` has processed since it last visited a queue. */
  function TurnCycles(b: seq<State>, acts: seq<Action>, w: nat, k: nat): nat
    requires |b| == |acts| + 1 && k <= |acts|
  {
    if k == 0 then 0
    else if !IsStepOf(acts[k - 1], w) || w >= |b[k - 1].workers| then TurnCycles(b, acts, w, k - 1)
    else
      match b[k - 1].workers[w].at
      case Visit(_) => 0
      case Process(_, _) => TurnCycles(b, acts, w, k - 1) + acts[k - 1].cycles
      case _ => TurnCycles(b, acts, w, k - 1)
  }

  predicate Metered(w: Worker, cycles: nat) {
    match w.at
    case Visit(_) => true
    case Asleep => true
    case Head(_, spent) => spent == cycles
    case Load(_, spent) => spent == cycles
    case Process(_, spent) => spent == cycles
    case AddCycles(_, spent, _, _) => spent == cycles
    case AddBytes(_, spent, _) => spent == cycles
  }

  lemma MeterStep(cfg: Config, s: State, a: Action, s': State, w: nat, before: nat, after: nat)
    requires Next(cfg, s, a, s') && w < |s.workers| && Metered(s.workers[w], before)
    requires after == (if !IsStepOf(a, w) then before
                       else match s.workers[w].at
                            case Visit(_) => 0
                            case Process(_, _) => before + a.cycles
                            case _ => before)
    ensures |s'.workers| == |s.workers| && Metered(s'.workers[w], after)
  {
    if !IsStepOf(a, w) {
      OthersLeaveIt(cfg, s, a, s', w);
    }
  }

  /** What a worker compares with the limit is what the packets of its turn have cost so far. */
  lemma {:induction false} TurnIsMetered(cfg: Config, b: seq<State>, acts: seq<Action>, w: nat, k: nat)
    requires Behaviour(cfg, b, acts) && k <= |acts| && w < cfg.workers
    ensures w < |b[k].workers| && Metered(b[k].workers[w], TurnCycles(b, acts, w, k))
  {
    if k > 0 {
      TurnIsMetered(cfg, b, acts, w, k - 1);
      StepAt(cfg, b, acts, k - 1);
      MeterStep(cfg, b[k - 1], acts[k - 1], b[k], w, TurnCycles(b, acts, w, k - 1), TurnCycles(b, acts, w, k));
    }
  }

  /** A worker looks at the next packet of a queue only while its turn is within the limit. */
  predicate WithinTurn(w: Worker) {
    match w.at
    case Load(_, spent) => spent < 148_480
    case Process(_, spent) => spent < 148_480
    case AddCycles(_, spent, cycles, _) => spent < 148_480 + cycles
    case _ => true
  }

  /** Packets of a worker in its current batch: it sleeps when there are 2^20, and not before. */
  predicate WithinBatch(w: Worker) {
    if w.at.Asleep? then w.packets == 0 || w.packets == 1_048_576 else w.packets < 1_048_576
  }

  ghost predicate TurnsAndBatches(s: State) {
    forall w :: 0 <= w < |s.workers| ==> WithinTurn(s.workers[w]) && WithinBatch(s.workers[w])
  }

  lemma TurnStep(cfg: Config, s: State, a: Action, s': State)
    requires Next(cfg, s, a, s') && TurnsAndBatches(s)
    ensures TurnsAndBatches(s')
  {
    if a.WorkerStep? {
      forall w | 0 <= w < |s'.workers| && w != a.w
        ensures s'.workers[w] == s.workers[w]
      {
        OthersLeaveIt(cfg, s, a, s', w);
      }
    } else {
      assert s'.workers == s.workers;
    }
  }

  /** No turn exceeds the limit by more than one packet, and no batch is left early or exceeded. */
  lemma {:induction false} TurnsAndBatchesEnd(cfg: Config, b: seq<State>, acts: seq<Action>, k: nat)
    requires Behaviour(cfg, b, acts) && k <= |acts|
    ensures TurnsAndBatches(b[k])
  {
    if k > 0 {
      TurnsAndBatchesEnd(cfg, b, acts, k - 1);
      StepAt(cfg, b, acts, k - 1);
      TurnStep(cfg, b[k - 1], acts[k - 1], b[k]);
    }
  }

  /** Packets that worker `w` has finished, and times it was started. */
  function Finished(b: seq<State>, acts: seq<Action>, w: nat, k: nat): nat
    requires |b| == |acts| + 1 && k <= |acts|
  {
    if k == 0 then 0
    else Finished(b, acts, w, k - 1)
         + (if IsStepOf(acts[k - 1], w) && w < |b[k - 1].workers| && b[k - 1].workers[w].at.AddBytes? then 1 else 0)
  }

  function Started(b: seq<State>, acts: seq<Action>, w: nat, k: nat): nat
    requires |b| == |acts| + 1 && k <= |acts|
  {
    if k == 0 then 0
    else Started(b, acts, w, k - 1)
         + (if IsStepOf(acts[k - 1], w) && w < |b[k - 1].workers| && b[k - 1].workers[w].at.Asleep? then 1 else 0)
  }

  /** All started batches were finished in full, but for the current one. */
  predicate BatchesAdd(w: Worker, finished: nat, started: nat) {
    if w.at.Asleep? then finished == 1_048_576 * started
    else started > 0 && finished == 1_048_576 * (started - 1) + w.packets
  }

  lemma BatchStep(cfg: Config, s: State, a: Action, s': State, w: nat, finished: nat, started: nat)
    requires Next(cfg, s, a, s') && w < |s.workers| && WithinBatch(s.workers[w])
    requires BatchesAdd(s.workers[w], finished, started)
    ensures |s'.workers| == |s.workers|
    ensures BatchesAdd(s'.workers[w], finished + (if IsStepOf(a, w) && s.workers[w].at.AddBytes? then 1 else 0),
                       started + (if IsStepOf(a, w) && s.workers[w].at.Asleep? then 1 else 0))
  {
    if !IsStepOf(a, w) {
      OthersLeaveIt(cfg, s, a, s', w);
    }
  }

  /** Every start of a worker is good for exactly 2^20 packets. */
  lemma {:induction false} BatchesAreWhole(cfg: Config, b: seq<State>, acts: seq<Action>, w: nat, k: nat)
    requires Behaviour(cfg, b, acts) && k <= |acts| && w < cfg.workers
    ensures w < |b[k].workers| && BatchesAdd(b[k].workers[w], Finished(b, acts, w, k), Started(b, acts, w, k))
  {
    if k > 0 {
      BatchesAreWhole(cfg, b, acts, w, k - 1);
      TurnsAndBatchesEnd(cfg, b, acts, k - 1);
      StepAt(cfg, b, acts, k - 1);
      BatchStep(cfg, b[k - 1], acts[k - 1], b[k], w, Finished(b, acts, w, k - 1), Started(b, acts, w, k - 1));
    }
  }
}
