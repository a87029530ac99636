/**
  The receive path of one queue: the hardware completes posted receives in order, one
  completion for each; the worker reads a completion, posts a receive again and only then
  steps its completion index. Hardware and worker interleave freely.
 */
module ReceiveCredits {
  import opened Words
  import opened Ring

  datatype At =
    | Polling    // about to look at the owner bit
    | Reading    // about to read the completion and process the packet
    | Reposting  // about to post the receive again
    | Stepping   // about to step the completion index

  datatype State = State(
    ring: seq<Cqe>,
    posted: nat,     // receives ever posted
    cqIdx: u32,
    hwOwnerBit: nat,
    at: At,
    // history
    log: seq<Completion>,     // completions ever written
    served: seq<Completion>)  // what the worker read, in order

  datatype Action = Worker | Hardware(c: Completion)

  /** As many receives are posted as the queue has entries, and every owner bit is 1. */
  ghost predicate Initially(s: State, l: nat) {
    && |s.ring| == Pow2(l) && (forall k :: 0 <= k < |s.ring| ==> s.ring[k].owner == 1)
    && s.posted == Pow2(l) && s.cqIdx == 0 && s.hwOwnerBit == 1 && s.at == Polling
    && s.log == [] && s.served == []
  }

  function WorkerStep(s: State, l: nat): State
    requires |s.ring| == Pow2(l)
  {
    var entry := s.ring[Slot(s.cqIdx, l)];
    match s.at
    case Polling => if entry.owner != s.hwOwnerBit then s.(at := Reading) else s
    case Reading => s.(served := s.served + [entry.what], at := Reposting)
    case Reposting => s.(posted := s.posted + 1, at := Stepping)
    case Stepping =>
      var i := Wrap32(s.cqIdx + 1);
      s.(cqIdx := i, hwOwnerBit := if Slot(i, l) == 0 then Not(s.hwOwnerBit) else s.hwOwnerBit, at := Polling)
  }

  /** One more completion, if a receive is posted for it. */
  function HardwareStep(s: State, c: Completion, l: nat): State
    requires |s.ring| == Pow2(l)
  {
    if |s.log| < s.posted then
      s.(ring := s.ring[Slot(|s.log|, l) := Stamped(|s.log|, c, l)], log := s.log + [c])
    else s
  }

  function Step(s: State, a: Action, l: nat): State
    requires |s.ring| == Pow2(l)
  {
    match a case Worker => WorkerStep(s, l) case Hardware(c) => HardwareStep(s, c, l)
  }

  /** Packets the worker is done with. */
  function Consumed(s: State): int {
    |s.served| - (if s.at == Reposting || s.at == Stepping then 1 else 0)
  }

  ghost predicate Inv(s: State, l: nat) {
    var c := Consumed(s);
    && c >= 0
    && Holds(s.ring, s.log, l)
    && s.posted == Pow2(l) + c + (if s.at == Stepping then 1 else 0)
    && c <= |s.log| <= s.posted
    && (s.at != Polling ==> c < |s.log|)
    && s.cqIdx == c % 0x1_0000_0000 && s.hwOwnerBit == Not(LapBit(c, l))
    && s.served <= s.log
  }

  /** As many credits as slots, on a ring that is empty. */
  lemma {:induction false} InitialInv(s: State, l: nat)
    requires l <= 31 && Initially(s, l)
    ensures Inv(s, l) && s.posted - |s.log| == Pow2(l) == |s.ring|
  {
    FreshRing(s.ring, l);
  }

  lemma WorkerKeepsInv(s: State, l: nat)
    requires l <= 31 && Inv(s, l)
    ensures Inv(WorkerStep(s, l), l)
  {
    var c := Consumed(s);
    WrapKeepsSlot(c, l);
    match s.at
    case Polling => OwnerTestIsExact(s.ring, s.log, l, c);
    case Reading =>
      OwnerTestIsExact(s.ring, s.log, l, c);
      assert s.log[..c + 1] == s.log[..c] + [s.log[c]];
      assert s.served == s.log[..c];
    case Reposting =>
    case Stepping =>
      WrapStep(c);
      StepIndex(c, l, Wrap32(s.cqIdx + 1));
  }

  lemma HardwareKeepsInv(s: State, c: Completion, l: nat)
    requires l <= 31 && Inv(s, l)
    ensures Inv(HardwareStep(s, c, l), l)
  {
    HoldsAfterWrite(s.ring, s.log, c, l);
  }

  ghost predicate Behaviour(b: seq<State>, acts: seq<Action>, l: nat) {
    && l <= 31 && |b| == |acts| + 1 && Initially(b[0], l)
    && forall k :: 0 <= k < |acts| ==> |b[k].ring| == Pow2(l) && b[k + 1] == Step(b[k], acts[k], l)
  }

  lemma {:induction false} BehaviourInv(b: seq<State>, acts: seq<Action>, l: nat, k: nat)
    requires Behaviour(b, acts, l) && k <= |acts|
    ensures Inv(b[k], l)
  {
    if k == 0 {
      InitialInv(b[0], l);
    } else {
      BehaviourInv(b, acts, l, k - 1);
      assert b[k] == Step(b[k - 1], acts[k - 1], l);
      match acts[k - 1]
      case Worker => WorkerKeepsInv(b[k - 1], l);
      case Hardware(c) => HardwareKeepsInv(b[k - 1], c, l);
    }
  }

  /** Packets are served once each and in order, with the fields the hardware wrote. */
  lemma ServedInOrder(b: seq<State>, acts: seq<Action>, l: nat, k: nat)
    requires Behaviour(b, acts, l) && k <= |acts|
    ensures b[k].served <= b[k].log
  {
    BehaviourInv(b, acts, l, k);
  }

  /** The hardware completes a receive exactly when one is posted. */
  lemma {:induction false} CreditsAdmit(s: State, c: Completion, l: nat)
    requires |s.ring| == Pow2(l)
    ensures HardwareStep(s, c, l).log == if |s.log| < s.posted then s.log + [c] else s.log
  {
  }

  /** Steps of the worker between two moments. */
  function WorkerSteps(acts: seq<Action>, i: nat, j: nat): nat
    requires i <= j <= |acts|
  {
    if i == j then 0 else WorkerSteps(acts, i, j - 1) + (if acts[j - 1] == Worker then 1 else 0)
  }

  /** Where the worker is `m` steps after a poll of a queue that is not empty, and what it has done. */
  predicate Serving(since: State, s: State, m: nat) {
    && since.log <= s.log && |since.served| < |since.log|
    && s.at == (match m case 0 => Polling case 1 => Reading case 2 => Reposting case 3 => Stepping case _ => Polling)
    && s.served == (if m < 2 then since.served else since.served + [since.log[|since.served|]])
    && s.posted == since.posted + (if m < 3 then 0 else 1)
  }

  lemma ServingStep(since: State, s: State, a: Action, l: nat, m: nat)
    requires l <= 31 && Inv(s, l) && Serving(since, s, m) && (a == Worker ==> m < 4)
    ensures Serving(since, Step(s, a, l), if a == Worker then m + 1 else m)
  {
    if a == Worker && (m == 0 || m == 1) {
      WrapKeepsSlot(Consumed(s), l);
      OwnerTestIsExact(s.ring, s.log, l, Consumed(s));
    }
  }

  /**
    A packet that has arrived is served: four steps of the worker after the poll it is served,
    its receive is posted again and the worker polls, whatever the hardware does meanwhile.
   */
  lemma {:induction false} ArrivedIsServed(b: seq<State>, acts: seq<Action>, l: nat, i: nat, j: nat)
    requires Behaviour(b, acts, l) && i <= j <= |acts| && WorkerSteps(acts, i, j) <= 4
    requires b[i].at == Polling && |b[i].served| < |b[i].log|
    ensures Serving(b[i], b[j], WorkerSteps(acts, i, j))
  {
    if i < j {
      ArrivedIsServed(b, acts, l, i, j - 1);
      BehaviourInv(b, acts, l, j - 1);
      assert b[j - 1 + 1] == Step(b[j - 1], acts[j - 1], l);
      ServingStep(b[i], b[j - 1], acts[j - 1], l, WorkerSteps(acts, i, j - 1));
    }
  }

  /** At every poll the hardware is at most one lap ahead, and the owner bit tells exactly whether it is ahead. */
  lemma {:induction false} PollIsExact(b: seq<State>, acts: seq<Action>, l: nat, k: nat)
    requires Behaviour(b, acts, l) && k <= |acts| && b[k].at == Polling
    ensures |b[k].served| <= |b[k].log| <= |b[k].served| + Pow2(l) == b[k].posted
    ensures |b[k].ring| == Pow2(l)
    ensures b[k].ring[Slot(b[k].cqIdx, l)].owner != b[k].hwOwnerBit <==> |b[k].served| < |b[k].log|
  {
    BehaviourInv(b, acts, l, k);
    var s := b[k];
    WrapKeepsSlot(|s.served|, l);
    OwnerTestIsExact(s.ring, s.log, l, |s.served|);
  }

  /**
    A completion is overwritten before the index steps past it only after it was read: until
    then its slot still holds it.
   */
  lemma {:induction false} OverwrittenOnlyAfterRead(b: seq<State>, acts: seq<Action>, l: nat, k: nat)
    requires Behaviour(b, acts, l) && k <= |acts| && b[k].at != Polling
    ensures |b[k].ring| == Pow2(l) && 0 <= Consumed(b[k]) < |b[k].log|
    ensures var s, c := b[k], Consumed(b[k]);
            s.ring[Slot(s.cqIdx, l)] != Stamped(c, s.log[c], l) ==>
              s.at == Stepping && |s.served| == c + 1 && s.served[c] == s.log[c]
  {
    BehaviourInv(b, acts, l, k);
    WrapKeepsSlot(Consumed(b[k]), l);
  }

  /** And it can be: once the receive is posted again, a full ring lets the hardware write that slot. */
  lemma {:induction false} RepostOpensTheSlot(s: State, c: Completion, l: nat)
    requires l <= 31 && Inv(s, l) && s.at == Stepping && |s.log| == Consumed(s) + Pow2(l)
    ensures HardwareStep(s, c, l).ring[Slot(s.cqIdx, l)] == Stamped(Consumed(s) + Pow2(l), c, l)
  {
    WrapKeepsSlot(Consumed(s), l);
    LapBefore(Consumed(s) + Pow2(l), l);
  }
}
