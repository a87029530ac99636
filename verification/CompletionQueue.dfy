/** The completion queue context of `com_dev.c` as a first-in first-out queue without bounds. */
module CompletionQueues {
  import opened Words
  import opened Ring

  const REQUESTER: nat := 0

  class Counter {
    var value: u32

    constructor ()
      ensures value == 0
    {
      value := 0;
    }
  }

  class CompletionQueue {
    const logDepth: nat
    const ring: array<Cqe>
    var cqe: nat          // the slot that `cqe` points to
    var cqIdx: u32
    var hwOwnerBit: nat
    var doorbell: u32     // the consumer index the hardware was told
    var produced: nat     // the hardware's own index, which never wraps here

    ghost var log: seq<Completion>  // every completion ever written
    ghost var consumed: nat         // how many of them were consumed

    /** Index, pointer, expected owner bit and doorbell all stand at completion number `consumed`. */
    ghost predicate Placed()
      reads this
    {
      && logDepth <= 31
      && cqIdx == consumed % 0x1_0000_0000 == doorbell
      && cqe == Slot(consumed, logDepth)
      && hwOwnerBit == Not(LapBit(consumed, logDepth))
    }

    ghost predicate Valid()
      reads this, ring
    {
      && Placed()
      && consumed <= |log| <= consumed + Pow2(logDepth)
      && produced == |log|
      && Holds(ring[..], log, logDepth)
    }

    /** The unbounded queue that the ring stands for. */
    ghost function Contents(): seq<Completion>
      requires Valid()
      reads this, ring
    {
      log[consumed..]
    }

    /** `com_cq_ctx_init`, on a ring whose owner bits the host has set to 1. */
    constructor (log2: nat, slots: array<Cqe>)
      requires log2 <= 31 && slots.Length == Pow2(log2)
      requires forall k :: 0 <= k < slots.Length ==> slots[k].owner == 1
      ensures Valid() && Contents() == [] && ring == slots && logDepth == log2
    {
      logDepth, ring := log2, slots;
      cqe, cqIdx, hwOwnerBit, doorbell := 0, 0, 1, 0;
      produced, log, consumed := 0, [], 0;
      new;
      FreshRing(ring[..], log2);
    }

    /** The hardware completes one more request. */
    method Complete(c: Completion)
      requires Valid() && |Contents()| < Pow2(logDepth)
      modifies this`log, this`produced, ring
      ensures Valid() && Contents() == old(Contents()) + [c]
    {
      HoldsAfterWrite(ring[..], log, c, logDepth);
      ghost var was := ring[..];
      ring[Slot(produced, logDepth)] := Stamped(produced, c, logDepth);
      assert ring[..] == was[Slot(|log|, logDepth) := Stamped(|log|, c, logDepth)];
      log := log + [c];
      produced := produced + 1;
    }

    /** At most one lap is in the queue, so a 32-bit counter can count it. */
    lemma ContentsFit()
      requires Valid()
      ensures |Contents()| <= 0x8000_0000
    {
      Pow2Of32();
      Pow2Mono(logDepth, 31);
    }

    /** The owner bit in the current slot differs from the expected one. */
    predicate Ready()
      requires Valid()
      reads this, ring
      ensures Ready() <==> Contents() != []
    {
      OwnerTestIsExact(ring[..], log, logDepth, consumed);
      ring[cqe].owner != hwOwnerBit
    }

    /** The completion in the current slot. */
    function Current(): Completion
      requires Valid() && Contents() != []
      reads this, ring
      ensures Current() == Contents()[0]
    {
      OwnerTestIsExact(ring[..], log, logDepth, consumed);
      ring[cqe].what
    }

    /** `com_step_cq`: consumes the head of the queue; on an empty queue the context runs ahead of the hardware. */
    method StepCq()
      requires Placed()
      modifies this`cqe, this`cqIdx, this`hwOwnerBit, this`doorbell, this`consumed
      ensures Placed() && consumed == old(consumed) + 1
      ensures old(Valid()) && old(Contents()) != [] ==> Valid() && Contents() == old(Contents())[1..]
      ensures old(Valid()) && old(Contents()) == [] ==> !Valid()
    {
      WrapStep(consumed);
      cqIdx := Wrap32(cqIdx + 1);
      StepIndex(consumed, logDepth, cqIdx);
      cqe := Slot(cqIdx, logDepth);
      if Slot(cqIdx, logDepth) == 0 {
        hwOwnerBit := Not(hwOwnerBit);
      }
      doorbell := cqIdx;
      consumed := consumed + 1;
    }

    /** One iteration of the loop of `com_cq_poll`. */
    method ConsumeOne(counter: Counter) returns (ok: bool)
      requires Valid() && Contents() != [] && counter.value < 0xFFFF_FFFF
      modifies this`cqe, this`cqIdx, this`hwOwnerBit, this`doorbell, this`consumed, counter
      ensures Valid() && ok == (old(Contents())[0].opcode == REQUESTER)
      ensures Contents() == if ok then old(Contents())[1..] else old(Contents())
      ensures counter.value == old(counter.value) + if ok then 1 else 0
    {
      ok := Current().opcode == REQUESTER;
      if ok {
        StepCq();
        counter.value := Wrap32(counter.value + 1);
      }
    }
  }

  /** The longest prefix of completions that belong to the requester. */
  function RequesterPrefix(cs: seq<Completion>): (n: nat)
    ensures n <= |cs|
    ensures forall i :: 0 <= i < n ==> cs[i].opcode == REQUESTER
    ensures n < |cs| ==> cs[n].opcode != REQUESTER
  {
    if cs == [] || cs[0].opcode != REQUESTER then 0 else 1 + RequesterPrefix(cs[1..])
  }

  /**
    `com_cq_poll` on a ring that nobody writes meanwhile: consumes exactly the requester's
    completions that come first, and fails at the first one of another kind.
   */
  method ComCqPoll(cq: CompletionQueue?, consumedCqes: Counter?) returns (status: u32)
    requires cq != null ==> cq.Valid()
    modifies consumedCqes, cq
    ensures cq == null || consumedCqes == null ==>
              status == 255 && (cq != null ==> unchanged(cq)) && (consumedCqes != null ==> unchanged(consumedCqes))
    ensures cq != null ==> cq.Valid()
    ensures cq != null && consumedCqes != null ==>
              var was := old(cq.Contents());
              && consumedCqes.value == RequesterPrefix(was)
              && cq.Contents() == was[RequesterPrefix(was)..]
              && status == (if RequesterPrefix(was) == |was| then 0 else 255)
  {
    if cq == null || consumedCqes == null {
      return 255;
    }
    consumedCqes.value := 0;
    ghost var was := cq.Contents();
    cq.ContentsFit();
    while cq.Ready()
      invariant cq.Valid() && consumedCqes.value <= RequesterPrefix(was)
      invariant cq.Contents() == was[consumedCqes.value..]
      decreases |was| - consumedCqes.value
    {
      ghost var k: nat := consumedCqes.value;
      var ok := cq.ConsumeOne(consumedCqes);
      if !ok {
        return 255;
      }
      assert was[k..][1..] == was[k + 1..];
    }
    return 0;
  }
}
