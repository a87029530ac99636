/** The send ring: built once, then only its data segments are patched. */
module SendRing {
  import opened Words

  const Q_DEPTH: nat := 128
  /** Four segments for each entry. */
  const SEGMENTS: nat := 512

  datatype Segment =
    | Raw(words: seq<u32>) // whatever memory held before
    | Control(wqeIdx: nat, sqNumber: u32)
    | Ethernet
    | Data(size: u32, lkey: u32, addr: u64)

  datatype Packet = Packet(size: u32, lkey: u32, addr: u64)

  /** What a send ring is built from. */
  datatype Setup = Setup(memory: seq<Segment>, sqNumber: u32, lkey: u32) {
    predicate Valid() {
      |memory| == SEGMENTS
    }
  }

  /** The segment that an index finds under `SQ_IDX_MASK`. */
  function SegmentOf(index: u32): (k: nat)
    ensures k < SEGMENTS
    ensures index < SEGMENTS ==> k == index
  {
    index % 512
  }

  /** The entry of the packet with number `n`. */
  function EntryOf(n: nat): (e: nat)
    ensures e < Q_DEPTH
    ensures n < Q_DEPTH ==> e == n
  {
    n % 128
  }

  /** What the pre-build loop leaves in segment `k`; the fourth of each entry is not written. */
  function Template(k: nat, setup: Setup): Segment
    requires setup.Valid() && k < SEGMENTS
  {
    match k % 4
    case 0 => Control(k / 4, setup.sqNumber)
    case 1 => Ethernet
    case 2 => Data(0, setup.lkey, 0)
    case _ => setup.memory[k]
  }

  function Built(setup: Setup): (ring: seq<Segment>)
    requires setup.Valid()
    ensures |ring| == SEGMENTS
  {
    seq(SEGMENTS, k requires 0 <= k < SEGMENTS => Template(k, setup))
  }

  /** The ring after `sent`: packet by packet, the data segment of the packet's entry. */
  function RingAfter(sent: seq<Packet>, setup: Setup): (ring: seq<Segment>)
    requires setup.Valid()
    ensures |ring| == SEGMENTS
  {
    if sent == [] then Built(setup)
    else
      var n := |sent| - 1;
      RingAfter(sent[..n], setup)[4 * EntryOf(n) + 2 := Data(sent[n].size, sent[n].lkey, sent[n].addr)]
  }

  /**
    For any number of packets each of the 128 entries keeps the control segment of its index,
    the ethernet segment, and in its fourth segment what memory held before.
   */
  lemma {:induction false} EntriesArePreserved(sent: seq<Packet>, setup: Setup, e: nat)
    requires setup.Valid() && e < 128
    ensures RingAfter(sent, setup)[4 * e] == Control(e, setup.sqNumber)
    ensures RingAfter(sent, setup)[4 * e + 1] == Ethernet
    ensures RingAfter(sent, setup)[4 * e + 3] == setup.memory[4 * e + 3]
  {
    if sent != [] {
      EntriesArePreserved(sent[..|sent| - 1], setup, e);
    } else {
      assert Built(setup)[4 * e] == Template(4 * e, setup) && Built(setup)[4 * e + 1] == Template(4 * e + 1, setup);
      assert Built(setup)[4 * e + 3] == Template(4 * e + 3, setup);
    }
  }

  lemma EntriesDiffer(i: nat, n: nat)
    requires i < n < i + Q_DEPTH
    ensures EntryOf(i) != EntryOf(n)
  {
  }

  /** Each of the last 128 packets is in the data segment of its entry; entries not used yet are as built. */
  lemma {:induction false} RecentPacketsAreInPlace(sent: seq<Packet>, setup: Setup, i: nat)
    requires setup.Valid() && |sent| - Q_DEPTH <= i
    requires i < Q_DEPTH || i < |sent|
    ensures RingAfter(sent, setup)[4 * (i % 128) + 2]
            == if i < |sent| then Data(sent[i].size, sent[i].lkey, sent[i].addr) else Data(0, setup.lkey, 0)
  {
    if sent != [] && i != |sent| - 1 {
      var n := |sent| - 1;
      if i < n {
        EntriesDiffer(i, n);
      }
      RecentPacketsAreInPlace(sent[..n], setup, i);
    } else if sent == [] {
      assert Template(4 * i + 2, setup) == Data(0, setup.lkey, 0);
    }
  }

  /** The segment index after `n` calls of `get_next_sqe`. */
  function IndexAfter(n: nat): u32 {
    if n == 0 then 0 else Wrap32(IndexAfter(n - 1) + 1)
  }

  /** Successive calls walk the ring in order, lap after lap, also when the 32-bit index wraps. */
  lemma {:induction false} WalksTheRing(n: nat)
    ensures IndexAfter(n) == n % 0x1_0000_0000
    ensures SegmentOf(IndexAfter(n)) == n % 512
  {
    IndexWraps(n);
    LowBits(n);
  }

  lemma {:induction false} IndexWraps(n: nat)
    ensures IndexAfter(n) == n % 0x1_0000_0000
  {
    if n > 0 {
      IndexWraps(n - 1);
      IndexStep(n, IndexAfter(n - 1), IndexAfter(n));
    }
  }

  lemma IndexStep(n: nat, i: u32, next: u32)
    requires n > 0 && i == (n - 1) % 0x1_0000_0000 && next == Wrap32(i + 1)
    ensures next == n % 0x1_0000_0000
  {
    WrapStep(n - 1);
  }

  lemma LowBits(n: nat)
    ensures SegmentOf(n % 0x1_0000_0000) == n % 512
  {
    var turns, low := n / 0x1_0000_0000, n % 0x1_0000_0000;
    assert n == 512 * (0x80_0000 * turns + low / 512) + low % 512;
  }

  /** The segment index keeps pointing at entry boundaries, also when it wraps. */
  lemma DataSegment(n: nat, segIdx: u32)
    requires segIdx == 4 * n % 0x1_0000_0000
    ensures SegmentOf(Wrap32(segIdx + 2)) == 4 * EntryOf(n) + 2
    ensures Wrap32(segIdx + 4) == 4 * (n + 1) % 0x1_0000_0000
  {
    var turns := 4 * n / 0x1_0000_0000;
    assert 4 * n == 0x1_0000_0000 * turns + segIdx;
    EntryInLap(n, turns, segIdx);
    assert 4 * (n + 1) == 0x1_0000_0000 * turns + (segIdx + 4);
  }

  lemma EntryInLap(n: nat, turns: nat, segIdx: u32)
    requires 4 * n == 0x1_0000_0000 * turns + segIdx
    ensures segIdx % 4 == 0 && segIdx % 512 == 4 * EntryOf(n)
  {
    var low := n - 0x4000_0000 * turns;
    assert segIdx == 4 * low;
    assert low % 128 == n % 128 by {
      assert n == 128 * (0x80_0000 * turns) + low;
    }
    assert segIdx == 512 * (low / 128) + 4 * (low % 128);
  }

  lemma ProducerIndex(n: nat, pi: u32)
    requires pi == n % 0x1_0000_0000
    ensures EntryOf(pi) == EntryOf(n)
    ensures Wrap32(pi + 1) == (n + 1) % 0x1_0000_0000
  {
    var turns := n / 0x1_0000_0000;
    assert n == 0x1_0000_0000 * turns + pi;
    assert n == 128 * (0x200_0000 * turns + pi / 128) + pi % 128;
    assert n + 1 == 0x1_0000_0000 * turns + (pi + 1);
  }

  class SendQueue {
    const sqNumber: u32
    const lkey: u32
    const ring: array<Segment>
    var segIdx: u32
    var pi: u32
    ghost const memory: seq<Segment>
    ghost var sent: seq<Packet>

    ghost function Origin(): Setup {
      Setup(memory, sqNumber, lkey)
    }

    ghost predicate Valid()
      reads this, ring
    {
      && Origin().Valid()
      && ring[..] == RingAfter(sent, Origin())
      && segIdx == 4 * |sent| % 0x1_0000_0000
      && pi == |sent| % 0x1_0000_0000
    }

    /** `com_sq_ctx_init` on any memory, and the pre-build loop of `sch_ctx_init`. */
    constructor (number: u32, key: u32, segments: array<Segment>)
      requires segments.Length == SEGMENTS
      modifies segments
      ensures Valid() && sent == [] && ring == segments && Origin() == Setup(old(segments[..]), number, key)
      ensures forall e :: 0 <= e < 128 ==>
                && segments[4 * e] == Control(e, number) && segments[4 * e + 1] == Ethernet
                && segments[4 * e + 2] == Data(0, key, 0) && segments[4 * e + 3] == old(segments[4 * e + 3])
    {
      sqNumber, lkey, ring, memory := number, key, segments, segments[..];
      segIdx, pi, sent := 0, 0, [];
      new;
      for a := 0 to Q_DEPTH
        invariant segIdx == 4 * a && pi == 0 && sent == []
        invariant forall k :: 0 <= k < 4 * a ==> ring[k] == Template(k, Origin())
        invariant forall k :: 4 * a <= k < SEGMENTS ==> ring[k] == memory[k]
      {
        BuildEntry(a);
      }
      segIdx := 0;
      assert ring[..] == Built(Origin());
      forall e | 0 <= e < 128
        ensures ring[4 * e] == Control(e, number) && ring[4 * e + 1] == Ethernet
        ensures ring[4 * e + 2] == Data(0, key, 0) && ring[4 * e + 3] == memory[4 * e + 3]
      {
        EntriesArePreserved([], Origin(), e);
        RecentPacketsAreInPlace([], Origin(), e);
      }
    }

    /** One iteration of the pre-build loop. */
    method BuildEntry(a: nat)
      requires ring.Length == SEGMENTS && Origin().Valid() && a < Q_DEPTH && segIdx == 4 * a
      modifies this`segIdx, ring
      ensures segIdx == 4 * a + 4
      ensures forall k :: 4 * a <= k < 4 * a + 3 ==> ring[k] == Template(k, Origin())
      ensures forall k :: 0 <= k < 4 * a || 4 * a + 3 <= k < SEGMENTS ==> ring[k] == old(ring[k])
    {
      var swqe := NextSqe();
      ring[swqe] := Control(a, sqNumber);
      swqe := NextSqe();
      ring[swqe] := Ethernet;
      swqe := NextSqe();
      ring[swqe] := Data(0, lkey, 0);
      swqe := NextSqe();
    }

    /** `get_next_sqe`. */
    method NextSqe() returns (k: nat)
      modifies this`segIdx
      ensures k == SegmentOf(old(segIdx)) && segIdx == Wrap32(old(segIdx) + 1)
    {
      k := SegmentOf(segIdx);
      segIdx := Wrap32(segIdx + 1);
    }

    /** What processing a packet does to the ring: exactly the data segment of entry `pi` changes. */
    method Send(p: Packet)
      requires Valid()
      modifies this`segIdx, this`pi, this`sent, ring
      ensures Valid() && sent == old(sent) + [p]
      ensures ring[..] == old(ring[..])[4 * EntryOf(old(pi)) + 2 := Data(p.size, p.lkey, p.addr)]
    {
      DataSegment(|sent|, segIdx);
      ProducerIndex(|sent|, pi);
      var swqe := SegmentOf(Wrap32(segIdx + 2));
      segIdx := Wrap32(segIdx + 4);
      ring[swqe] := Data(p.size, p.lkey, p.addr);
      pi := Wrap32(pi + 1);
      assert (sent + [p])[..|sent|] == sent;
      sent := sent + [p];
    }
  }
}
