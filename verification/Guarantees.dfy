/** What every reachable state of scheduler and workers guarantees. */
module Guarantees {
  import opened Words
  import opened Budget
  import opened Apportion
  import opened RolloverLaws
  import opened RunLaws
  import opened Protocol
  import opened Interleaving
  import opened Collection

  ghost predicate Inv(cfg: Config, s: State) {
    && WellFormed(cfg, s)
    && Conserved(cfg, s) && Released(cfg, s) && Earned(cfg, s)
    && Linked(cfg, s) && Collected(cfg, s) && Sound(cfg, s) && Paced(s)
  }

  lemma InitialInv(cfg: Config, s: State)
    requires cfg.Valid() && Initially(cfg, s)
    ensures Inv(cfg, s)
  {
    forall i, r | 0 <= i < cfg.Tenants()
      ensures EarnedAt(cfg, s, i, r) && CollectedAt(cfg, s, i, r)
    {
    }
  }

  lemma WorkerKeepsInv(cfg: Config, s: State, a: Action)
    requires cfg.Valid() && Inv(cfg, s) && Enabled(cfg, s, a) && a.WorkerStep?
    ensures Inv(cfg, WorkerNext(cfg, s, a))
  {
    var s' := WorkerNext(cfg, s, a);
    WorkerStaysWellFormed(cfg, s, a);
    WorkerConserves(cfg, s, a);
    WorkerKeepsEarned(cfg, s, a);
    WorkerKeepsPrivate(cfg, s, a);
    SameAccountsKeepLinked(cfg, s, s');
    SameAccountsKeepCollected(cfg, s, s');
    forall i | 0 <= i < cfg.Tenants()
      ensures AllCounted(s', i) ==> AllCounted(s, i)
    {
      LiveGrows(cfg, s, a, i, Cycles);
      LiveGrows(cfg, s, a, i, Bytes);
    }
    SameAccountsKeepSound(cfg, s, s');
  }

  lemma SchedulerKeepsInv(cfg: Config, s: State)
    requires cfg.Valid() && Inv(cfg, s)
    ensures Inv(cfg, SchedulerNext(cfg, s))
  {
    SchedulerStaysWellFormed(cfg, s);
    SchedulerConserves(cfg, s);
    SchedulerReleases(cfg, s);
    SchedulerKeepsEarned(cfg, s);
    SchedulerStaysLinked(cfg, s);
    SchedulerCollects(cfg, s);
    SchedulerStaysSound(cfg, s);
    SchedulerKeepsPace(cfg, s);
  }

  lemma TimeKeepsEarned(cfg: Config, s: State, s': State)
    requires WellFormed(cfg, s) && s' == s.(clock := s'.clock, next := s'.next) && WellFormed(cfg, s')
    requires Conserved(cfg, s) && Earned(cfg, s)
    ensures Conserved(cfg, s') && Earned(cfg, s')
  {
    forall i, r | 0 <= i < cfg.Tenants()
      ensures EarnedAt(cfg, s', i, r)
    {
      assert EarnedAt(cfg, s, i, r);
    }
  }

  lemma TimeKeepsInv(cfg: Config, s: State, a: Action)
    requires cfg.Valid() && Inv(cfg, s) && Enabled(cfg, s, a) && (a.Tick? || a.Reenter?)
    ensures Inv(cfg, Apply(cfg, s, a))
  {
    var s' := Apply(cfg, s, a);
    StaysWellFormed(cfg, s, a);
    TimeKeepsEarned(cfg, s, s');
    SameAccountsKeepLinked(cfg, s, s');
    SameAccountsKeepCollected(cfg, s, s');
    SameAccountsKeepSound(cfg, s, s');
  }

  lemma NextKeepsInv(cfg: Config, s: State, a: Action, s': State)
    requires cfg.Valid() && Inv(cfg, s) && Next(cfg, s, a, s')
    ensures Inv(cfg, s')
  {
    match a
    case WorkerStep(_, _, _, _) => WorkerKeepsInv(cfg, s, a);
    case SchedulerStep => SchedulerKeepsInv(cfg, s);
    case _ => TimeKeepsInv(cfg, s, a);
  }

  lemma {:induction false} BehaviourInv(cfg: Config, b: seq<State>, acts: seq<Action>, k: nat)
    requires Behaviour(cfg, b, acts) && k <= |acts|
    ensures Inv(cfg, b[k])
  {
    if k == 0 {
      InitialInv(cfg, b[0]);
    } else {
      BehaviourInv(cfg, b, acts, k - 1);
      StepAt(cfg, b, acts, k - 1);
      NextKeepsInv(cfg, b[k - 1], acts[k - 1], b[k]);
    }
  }

  lemma ReachableInv(cfg: Config, s: State)
    requires Reachable(cfg, s)
    ensures cfg.Valid() && Inv(cfg, s)
  {
    var b, acts :| Behaviour(cfg, b, acts) && b[|acts|] == s;
    BehaviourInv(cfg, b, acts, |acts|);
  }

  // ---------------------------------------------------------------- the guarantees

  /** No charge is lost: what workers charged was collected, is being collected, or is in the counter. */
  lemma {:induction false} ChargesAreConserved(cfg: Config, s: State, i: nat, r: Resource)
    requires Reachable(cfg, s) && i < cfg.Tenants()
    ensures WellFormed(cfg, s)
    ensures Balanced(s.past.charged[i].Of(r), UsedBy(s.past.periods, i, r) + InHand(s, i, r), Live(s, i, r))
    ensures Counted(s, i, r) ==>
              s.past.charged[i].Of(r) == UsedBy(s.past.periods, i, r) + InHand(s, i, r) + Live(s, i, r)
  {
    ReachableInv(cfg, s);
    BalancedAt(cfg, s, i, r);
  }

  lemma {:induction false} BalancedAt(cfg: Config, s: State, i: nat, r: Resource)
    requires WellFormed(cfg, s) && Conserved(cfg, s) && Collected(cfg, s) && i < cfg.Tenants()
    ensures Balanced(s.past.charged[i].Of(r), UsedBy(s.past.periods, i, r) + InHand(s, i, r), Live(s, i, r))
    ensures Counted(s, i, r) ==>
              s.past.charged[i].Of(r) == UsedBy(s.past.periods, i, r) + InHand(s, i, r) + Live(s, i, r)
  {
    assert CollectedAt(cfg, s, i, r);
    if Counted(s, i, r) {
      BalancedExactly(s.past.charged[i].Of(r), s.past.collected[i].Of(r), Live(s, i, r));
    }
  }

  /** What was collected is part of what was charged. */
  lemma {:induction false} CollectedFits(cfg: Config, s: State, i: nat, r: Resource)
    requires Reachable(cfg, s) && i < cfg.Tenants()
    requires i < |s.past.charged| && Counted(s, i, r)
    ensures WellFormed(cfg, s) && UsedBy(s.past.periods, i, r) <= MAX64
  {
    ChargesAreConserved(cfg, s, i, r);
    var charged, live := s.past.charged[i].Of(r), Live(s, i, r);
    var used, inHand := UsedBy(s.past.periods, i, r), InHand(s, i, r);
    assert charged == used + inHand + live;
    assert charged <= MAX64;
  }

  /** A tenant is restricted for a resource only when it has used up its budget of it. */
  lemma RestrictionIsEarned(cfg: Config, s: State, i: nat, r: Resource)
    requires Reachable(cfg, s) && i < cfg.Tenants()
    ensures WellFormed(cfg, s)
    ensures s.flags[i] == Bound(r) && Counted(s, i, r) && Checking(s.pc) ==> Live(s, i, r) >= s.tenants[i].Of(r).budget
  {
    ReachableInv(cfg, s);
    assert EarnedAt(cfg, s, i, r);
  }

  /**
    When pass one reaches a restricted tenant, the restricted account has nothing to carry over:
    it settles to exactly its target and there is nothing to reclaim.
   */
  lemma NothingToReclaim(cfg: Config, s: State, r: Resource)
    requires Reachable(cfg, s) && s.pc.TakeBytes?
    requires WellFormed(cfg, s) && s.flags[s.pc.t] == Bound(r) && Counted(s, s.pc.t, r)
    ensures var a, u := s.tenants[s.pc.t].Of(r), Use(s.pc.cycles, s.bytes[s.pc.t]);
            && u.Of(r) >= a.budget
            && SettledBudget(Bucket, a, true, u.Of(r)) == a.target == SettledBudget(Drf, a, true, u.Of(r))
            && Offer(Drf, a, true, u.Of(r)) == 0
  {
    ReachableInv(cfg, s);
    var t := s.pc.t;
    assert EarnedAt(cfg, s, t, r);
    RunKeepsValid(cfg.mode, cfg.initial, s.past.periods);
    assert s.tenants[t] == Base(cfg, s)[t];
    SoundFlagSettlesToTarget(s.tenants[t].Of(r), Use(s.pc.cycles, s.bytes[t]).Of(r));
  }

  /** Isolation survives interleaving: a tenant never has less than a token bucket of its own would. */
  lemma {:induction false} IsolationHolds(cfg: Config, s: State, i: nat, r: Resource)
    requires Reachable(cfg, s) && Checking(s.pc) && cfg.mode != Off && i < cfg.Tenants()
    requires i < |s.past.charged| && AllCounted(s, i)
    ensures WellFormed(cfg, s)
    ensures Covers(s.tenants[i], PrivateRun(OwnBucket(cfg.initial[i], r), s.past.periods, i, r), r)
  {
    ReachableInv(cfg, s);
    assert SoundAt(cfg, s, i);
    Isolated(cfg.mode, cfg.initial, s.past.periods, r, i);
  }

  /** Collected the same of tenant `i` here as of tenant `i'` there, rollover by rollover. */
  ghost predicate SameUses(ps: seq<Period>, i: nat, ps': seq<Period>, i': nat)
    requires forall k :: 0 <= k < |ps| ==> i < |ps[k].uses|
    requires forall k :: 0 <= k < |ps'| ==> i' < |ps'[k].uses|
  {
    |ps| == |ps'| && forall k :: 0 <= k < |ps| ==> ps[k].uses[i] == ps'[k].uses[i']
  }

  /**
    Two interleaved systems, one that shares and one in mode `OFF`, in which a tenant starts
    alike and is collected alike: sharing never leaves it with less budget or more debt,
    whatever workers and other tenants do in either.
   */
  lemma SharingNeverHurts(cfg: Config, s: State, i: nat, cfg': Config, s': State, i': nat)
    requires Reachable(cfg, s) && Checking(s.pc) && cfg.mode != Off && i < cfg.Tenants()
    requires Reachable(cfg', s') && Checking(s'.pc) && cfg'.mode == Off && i' < cfg'.Tenants()
    requires i < |s.past.charged| && AllCounted(s, i)
    requires WellFormed(cfg, s) && WellFormed(cfg', s')
    requires cfg.initial[i] == cfg'.initial[i'] && SameUses(s.past.periods, i, s'.past.periods, i')
    ensures NoWorse(s.tenants[i], s'.tenants[i'])
  {
    ReachableInv(cfg, s);
    ReachableInv(cfg', s');
    assert SoundAt(cfg, s, i);
    SharingBeatsOff(cfg.mode, cfg.initial, s.past.periods, i, cfg'.initial, s'.past.periods, i');
  }

  // ---------------------------------------------------------------- bounded overshoot

  /** Charges of resource `r` to tenant `t` that worker `w` has committed to and not made yet. */
  function InFlight(w: Worker, t: nat, r: Resource): nat {
    match w.at
    case Process(q, _) => if q == t then 1 else 0
    case AddCycles(q, _, _, _) => if q == t then 1 else 0
    case AddBytes(q, _, _) => if q == t && r == Bytes then 1 else 0
    case _ => 0
  }

  /** 1 if this step is a charge of `r` by worker `w` to tenant `t`. */
  function IsCharge(s: State, a: Action, w: nat, t: nat, r: Resource): nat
    requires w < |s.workers|
  {
    if a.WorkerStep? && a.w == w then
      match s.workers[w].at
      case AddCycles(q, _, _, _) => if q == t && r == Cycles then 1 else 0
      case AddBytes(q, _, _) => if q == t && r == Bytes then 1 else 0
      case _ => 0
    else 0
  }

  function ChargeCount(b: seq<State>, acts: seq<Action>, w: nat, t: nat, r: Resource, k: nat): nat
    requires |b| == |acts| + 1 && k <= |acts|
    requires forall j :: 0 <= j < |b| ==> w < |b[j].workers|
  {
    if k == 0 then 0 else ChargeCount(b, acts, w, t, r, k - 1) + IsCharge(b[k - 1], acts[k - 1], w, t, r)
  }

  /** A step while tenant `t` is restricted. */
  ghost predicate BoundStep(cfg: Config, s: State, a: Action, s': State, t: nat) {
    Next(cfg, s, a, s') && t < cfg.Tenants() && s.flags[t].Bound?
  }

  lemma ChargeStep(cfg: Config, s: State, a: Action, s': State, w: nat, t: nat, r: Resource)
    requires BoundStep(cfg, s, a, s', t) && w < |s.workers|
    ensures w < |s'.workers|
    ensures IsCharge(s, a, w, t, r) + InFlight(s'.workers[w], t, r) <= InFlight(s.workers[w], t, r)
  {
  }

  /**
    While a tenant stays restricted, each worker charges each resource to it at most once more:
    for the packet it was already committed to.
   */
  lemma {:induction false} AtMostOneMorePacket(cfg: Config, b: seq<State>, acts: seq<Action>,
                                               w: nat, t: nat, r: Resource, k: nat)
    requires |b| == |acts| + 1 && k <= |acts| && t < cfg.Tenants()
    requires forall j :: 0 <= j < |acts| ==> BoundStep(cfg, b[j], acts[j], b[j + 1], t)
    requires forall j :: 0 <= j < |b| ==> w < |b[j].workers|
    ensures ChargeCount(b, acts, w, t, r, k) + InFlight(b[k].workers[w], t, r) <= InFlight(b[0].workers[w], t, r) <= 1
  {
    if k > 0 {
      AtMostOneMorePacket(cfg, b, acts, w, t, r, k - 1);
      assert BoundStep(cfg, b[k - 1], acts[k - 1], b[k - 1 + 1], t);
      ChargeStep(cfg, b[k - 1], acts[k - 1], b[k], w, t, r);
    }
  }

  /** How much of `r` worker `w` has still to charge to tenant `t`, if no packet costs more than `most`. */
  function StillDue(w: Worker, t: nat, r: Resource, most: nat): nat {
    match w.at
    case Process(q, _) => if q == t then most else 0
    case AddCycles(q, _, cycles, bytes) => if q == t then Use(cycles, bytes).Of(r) else 0
    case AddBytes(q, _, bytes) => if q == t && r == Bytes then bytes else 0
    case _ => 0
  }

  function Due(s: State, t: nat, r: Resource, most: nat): (xs: seq<nat>)
    ensures |xs| == |s.workers|
  {
    seq(|s.workers|, w requires 0 <= w < |s.workers| => StillDue(s.workers[w], t, r, most))
  }

  /** The price of the packet that a worker is charging. */
  predicate ChargesAtMost(w: Worker, r: Resource, most: nat) {
    match w.at
    case AddCycles(_, _, cycles, bytes) => Use(cycles, bytes).Of(r) <= most
    case AddBytes(_, _, bytes) => r == Bytes ==> bytes <= most
    case _ => true
  }

  /** No packet costs more than `most` of `r`, neither those under way nor those to come. */
  ghost predicate PacketsCostAtMost(s: State, a: Action, r: Resource, most: nat) {
    && (a.WorkerStep? ==> Use(a.cycles, a.bytes).Of(r) <= most)
    && (forall w :: 0 <= w < |s.workers| ==> ChargesAtMost(s.workers[w], r, most))
  }

  lemma DueStep(cfg: Config, s: State, a: Action, s': State, t: nat, r: Resource, most: nat)
    requires HeldStep(cfg, s, a, s', t, r, most)
    ensures |s'.past.charged| == cfg.Tenants()
    ensures s'.past.charged[t].Of(r) + Sum(Due(s', t, r, most)) <= s.past.charged[t].Of(r) + Sum(Due(s, t, r, most))
  {
    if a.WorkerStep? {
      DueOfWorker(cfg, s, a, t, r, most);
      var left := StillDue(s'.workers[a.w], t, r, most);
      assert Due(s', t, r, most) == Due(s, t, r, most)[a.w := left];
      SumUpdate(Due(s, t, r, most), a.w, left);
    } else {
      assert s'.workers == s.workers && Due(s', t, r, most) == Due(s, t, r, most);
    }
  }

  lemma DueOfWorker(cfg: Config, s: State, a: Action, t: nat, r: Resource, most: nat)
    requires WellFormed(cfg, s) && Enabled(cfg, s, a) && a.WorkerStep? && t < cfg.Tenants() && s.flags[t].Bound?
    requires PacketsCostAtMost(s, a, r, most)
    ensures var s' := WorkerNext(cfg, s, a);
            && s'.workers == s.workers[a.w := s'.workers[a.w]]
            && s'.past.charged[t].Of(r) + StillDue(s'.workers[a.w], t, r, most)
               <= s.past.charged[t].Of(r) + StillDue(s.workers[a.w], t, r, most)
  {
  }

  /** All workers together owe at most the price of one packet each. */
  lemma DueAtMost(s: State, a: Action, t: nat, r: Resource, most: nat)
    requires PacketsCostAtMost(s, a, r, most)
    ensures Sum(Due(s, t, r, most)) <= |s.workers| * most
  {
    var bound := seq(|s.workers|, w => most);
    SumLe(Due(s, t, r, most), bound);
    SumConst(bound, most);
  }

  /** A step while tenant `t` is restricted and no packet costs more than `most` of `r`. */
  ghost predicate HeldStep(cfg: Config, s: State, a: Action, s': State, t: nat, r: Resource, most: nat) {
    BoundStep(cfg, s, a, s', t) && PacketsCostAtMost(s, a, r, most)
  }

  /**
    The overshoot of a restricted tenant: while the flag stands, all workers together charge
    at most the price of one packet each, of cycles and of bytes.
   */
  lemma {:induction false} OvershootIsBounded(cfg: Config, b: seq<State>, acts: seq<Action>,
                                              t: nat, r: Resource, most: nat, k: nat)
    requires |b| == |acts| + 1 && k <= |acts| && t < cfg.Tenants()
    requires forall j :: 0 <= j < |acts| ==> HeldStep(cfg, b[j], acts[j], b[j + 1], t, r, most)
    requires PacketsCostAtMost(b[0], SchedulerStep, r, most) && WellFormed(cfg, b[0])
    ensures |b[k].past.charged| == |b[0].past.charged| == cfg.Tenants()
    ensures b[k].past.charged[t].Of(r) + Sum(Due(b[k], t, r, most))
            <= b[0].past.charged[t].Of(r) + Sum(Due(b[0], t, r, most))
    ensures b[k].past.charged[t].Of(r) <= b[0].past.charged[t].Of(r) + cfg.workers * most
  {
    if k > 0 {
      OvershootIsBounded(cfg, b, acts, t, r, most, k - 1);
      assert HeldStep(cfg, b[k - 1], acts[k - 1], b[k - 1 + 1], t, r, most);
      DueStep(cfg, b[k - 1], acts[k - 1], b[k], t, r, most);
    }
    SumNonNeg(Due(b[k], t, r, most));
    DueAtMost(b[0], SchedulerStep, t, r, most);
  }
}
