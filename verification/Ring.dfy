/** Rings of `2^log` slots addressed by wrapping 32-bit indices, and completion entries with owner bits. */
module Ring {
  import opened Words

  /** `L2V`: `1 << l`. */
  function Pow2(l: nat): (p: nat)
    ensures p > 0
  {
    if l == 0 then 1 else 2 * Pow2(l - 1)
  }

  /** `index & L2M(l)`. */
  function Slot(index: nat, l: nat): (k: nat)
    ensures k < Pow2(l)
  {
    index % Pow2(l)
  }

  /** The lap in which a completion is written, as the hardware stamps it: it alternates with every lap. */
  function LapBit(index: nat, l: nat): nat {
    index / Pow2(l) % 2
  }

  /** `!bit`. */
  function Not(bit: nat): nat {
    if bit == 0 then 1 else 0
  }

  datatype Completion = Completion(opcode: nat, wqeCounter: nat, byteCnt: nat)

  datatype Cqe = Cqe(owner: nat, what: Completion)

  function Stamped(index: nat, c: Completion, l: nat): Cqe {
    Cqe(LapBit(index, l), c)
  }

  // ---------------------------------------------------------------- index arithmetic

  lemma {:induction false} Pow2Splits(a: nat, b: nat)
    ensures Pow2(a + b) == Pow2(a) * Pow2(b)
  {
    if a > 0 {
      Pow2Splits(a - 1, b);
      assert Pow2(a) * Pow2(b) == 2 * (Pow2(a - 1) * Pow2(b));
    } else {
      assert Pow2(0) * Pow2(b) == Pow2(b);
    }
  }

  lemma {:induction false} Pow2Mono(a: nat, b: nat)
    requires a <= b
    ensures Pow2(a) <= Pow2(b)
  {
    if a < b {
      Pow2Mono(a, b - 1);
    }
  }

  lemma Pow2Of32()
    ensures Pow2(32) == 0x1_0000_0000
  {
    assert Pow2(8) == 256;
    Pow2Splits(8, 8);
    Pow2Splits(16, 16);
  }

  lemma DivMod(x: int, d: int, q: int, r: int)
    requires d > 0 && x == q * d + r && 0 <= r < d
    ensures x / d == q && x % d == r
  {
    var q', r' := x / d, x % d;
    assert x == d * q' + r';
    assert (q - q') * d == r' - r && (q' - q) * d == r - r';
    if q > q' {
      MulAtLeast(q - q', d);
    } else if q < q' {
      MulAtLeast(q' - q, d);
    }
  }

  /** Taking off whole multiples of `d` keeps the remainder. */
  lemma ModOfMod(x: nat, d: nat, m: nat, w: nat)
    requires d > 0 && w > 0 && m * d == w
    ensures x % w % d == x % d
  {
    var turns, low := x / w, x % w;
    var q := low / d;
    assert x == w * turns + low && low == d * q + low % d;
    assert (turns * m + q) * d == turns * (m * d) + q * d;
    DivMod(x, d, turns * m + q, low % d);
  }

  lemma DivModBefore(x: nat, d: nat)
    requires x >= d > 0
    ensures (x - d) / d == x / d - 1 && (x - d) % d == x % d && x / d >= 1
  {
    var q, r := x / d, x % d;
    assert x == d * q + r;
    assert (q - 1) * d == q * d - d;
    DivMod(x - d, d, q - 1, r);
  }

  lemma MulAtLeast(n: int, d: int)
    requires n >= 1 && d > 0
    ensures n * d >= d
  {
  }

  /** A 32-bit index finds the same slot as the unbounded one. */
  lemma WrapKeepsSlot(index: nat, l: nat)
    requires l <= 32
    ensures Slot(index % 0x1_0000_0000, l) == Slot(index, l)
  {
    Pow2Of32();
    Pow2Splits(32 - l, l);
    ModOfMod(index, Pow2(l), Pow2(32 - l), 0x1_0000_0000);
  }

  /** And the same lap: the expected owner bit is a bit of the 32-bit index itself. */
  lemma WrapKeepsLap(index: nat, l: nat)
    requires l <= 31
    ensures LapBit(index % 0x1_0000_0000, l) == LapBit(index, l)
  {
    Pow2Of32();
    Pow2Splits(32 - l, l);
    LapOfMod(index, Pow2(l), Pow2(31 - l), 0x1_0000_0000);
  }

  lemma LapOfMod(x: nat, d: nat, half: nat, w: nat)
    requires d > 0 && w > 0 && 2 * half * d == w
    ensures x % w / d % 2 == x / d % 2
  {
    var turns, low := x / w, x % w;
    var q := low / d;
    assert x == w * turns + low && low == d * q + low % d;
    assert (turns * (2 * half) + q) * d == turns * (2 * half * d) + q * d;
    DivMod(x, d, turns * (2 * half) + q, low % d);
    assert turns * (2 * half) == 2 * (turns * half);
    EvenPart(turns * half, q);
  }

  lemma EvenPart(n: int, q: int)
    ensures (2 * n + q) % 2 == q % 2
  {
  }

  /** Stepping an index either stays in the lap or enters slot 0 of the next lap. */
  lemma NextIndex(index: nat, l: nat)
    ensures LapBit(index + 1, l) == if Slot(index + 1, l) == 0 then Not(LapBit(index, l)) else LapBit(index, l)
  {
    var d := Pow2(l);
    var q, r := index / d, index % d;
    assert index == d * q + r;
    if r + 1 == d {
      assert (q + 1) * d == q * d + d;
      DivMod(index + 1, d, q + 1, 0);
    } else {
      DivMod(index + 1, d, q, r + 1);
    }
  }

  /** One lap earlier: the same slot with the other bit. */
  lemma {:induction false} LapBefore(index: nat, l: nat)
    requires index >= Pow2(l)
    ensures Slot(index - Pow2(l), l) == Slot(index, l)
    ensures LapBit(index - Pow2(l), l) == Not(LapBit(index, l))
  {
    DivModBefore(index, Pow2(l));
    BitFlips(index / Pow2(l), (index - Pow2(l)) / Pow2(l));
  }

  lemma BitFlips(lap: nat, before: int)
    requires before == lap - 1 && lap >= 1
    ensures before % 2 == Not(lap % 2)
  {
  }

  /** One step of a consumer that keeps a 32-bit index and the owner bit it expects. */
  lemma StepIndex(c: nat, l: nat, i: u32)
    requires l <= 32 && i == (c + 1) % 0x1_0000_0000
    ensures Slot(i, l) == Slot(c + 1, l)
    ensures Not(LapBit(c + 1, l)) == if Slot(i, l) == 0 then LapBit(c, l) else Not(LapBit(c, l))
  {
    WrapKeepsSlot(c + 1, l);
    NextIndex(c, l);
  }

  lemma {:induction false} FirstLap(index: nat, l: nat)
    requires index < Pow2(l)
    ensures Slot(index, l) == index && LapBit(index, l) == 0
  {
    DivMod(index, Pow2(l), 0, index);
  }

  /** Within one lap's length no two indices share a slot. */
  lemma {:induction false} SlotsDiffer(i: nat, j: nat, l: nat)
    requires i < j < i + Pow2(l)
    ensures Slot(i, l) != Slot(j, l)
  {
    var d := Pow2(l);
    if i % d == j % d {
      var n := j / d - i / d;
      assert j - i == n * d by {
        assert i == d * (i / d) + i % d && j == d * (j / d) + j % d;
        assert n * d == j / d * d - i / d * d;
      }
      if n >= 1 {
        MulAtLeast(n, d);
      } else {
        NoMultiple(n, d);
      }
    }
  }

  lemma NoMultiple(n: int, d: int)
    requires n <= 0 && d > 0
    ensures n * d <= 0
  {
  }

  // ---------------------------------------------------------------- what the slots hold

  /**
    A ring after `log` was written to it: each of the last `2^l` completions is in its slot,
    stamped for its lap, and slots never written still have the owner bit that the host set.
   */
  ghost predicate Holds(ring: seq<Cqe>, log: seq<Completion>, l: nat) {
    && |ring| == Pow2(l)
    && (forall i :: 0 <= i < |log| && |log| - Pow2(l) <= i ==> ring[Slot(i, l)] == Stamped(i, log[i], l))
    && (forall k :: |log| <= k < Pow2(l) ==> ring[k].owner == 1)
  }

  /** A ring whose owner bits are all 1 is empty, and a consumer that expects 1 sees that. */
  lemma {:induction false} FreshRing(ring: seq<Cqe>, l: nat)
    requires |ring| == Pow2(l) && forall k :: 0 <= k < |ring| ==> ring[k].owner == 1
    ensures Holds(ring, [], l)
    ensures Slot(0, l) == 0 && Not(LapBit(0, l)) == 1 == ring[0].owner
  {
    FirstLap(0, l);
  }

  /** The hardware writes the next completion. */
  lemma HoldsAfterWrite(ring: seq<Cqe>, log: seq<Completion>, c: Completion, l: nat)
    requires Holds(ring, log, l)
    ensures Holds(ring[Slot(|log|, l) := Stamped(|log|, c, l)], log + [c], l)
  {
    var n := |log|;
    var ring', log' := ring[Slot(n, l) := Stamped(n, c, l)], log + [c];
    forall i | 0 <= i < n + 1 && n + 1 - Pow2(l) <= i
      ensures ring'[Slot(i, l)] == Stamped(i, log'[i], l)
    {
      if i < n {
        SlotsDiffer(i, n, l);
      }
    }
    forall k | n + 1 <= k < Pow2(l)
      ensures ring'[k].owner == 1
    {
      FirstLap(n, l);
    }
  }

  /**
    The owner test is exact: with a consumer at `c` that expects `Not(LapBit(c))`, the owner bit
    in its slot differs just when the producer is ahead, as long as it is at most one lap ahead.
   */
  lemma {:induction false} OwnerTestIsExact(ring: seq<Cqe>, log: seq<Completion>, l: nat, c: nat)
    requires Holds(ring, log, l) && c <= |log| <= c + Pow2(l)
    ensures ring[Slot(c, l)].owner != Not(LapBit(c, l)) <==> c < |log|
    ensures c < |log| ==> ring[Slot(c, l)].what == log[c]
  {
    if c < |log| {
      assert ring[Slot(c, l)] == Stamped(c, log[c], l);
    } else if c >= Pow2(l) {
      LapBefore(c, l);
      assert ring[Slot(c - Pow2(l), l)] == Stamped(c - Pow2(l), log[c - Pow2(l)], l);
    } else {
      FirstLap(c, l);
    }
  }
}
