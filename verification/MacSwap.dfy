/** Swapping the two MAC addresses of a packet: byte by byte, and with two overlapping words. */
module MacSwap {

  /** `PP_MAC_SWAP_MASK`. */
  const MASK: bv64 := 0x0000_ffff_ffff_ffff

  /** The packet with bytes 0 to 5 and 6 to 11 exchanged. */
  function Swapped(p: seq<bv8>): (r: seq<bv8>)
    requires |p| >= 12
    ensures |r| == |p|
  {
    p[6..12] + p[..6] + p[12..]
  }

  lemma SwapsBack(p: seq<bv8>)
    requires |p| >= 12
    ensures Swapped(Swapped(p)) == p && Swapped(p)[12..] == p[12..]
  {
  }

  /** `swap_macs`. */
  method SwapMacs(packet: array<bv8>)
    requires packet.Length >= 12
    modifies packet
    ensures packet[..] == Swapped(old(packet[..]))
  {
    for i := 0 to 6
      invariant forall k :: 0 <= k < i ==> packet[k] == old(packet[k + 6])
      invariant forall k :: 6 <= k < 6 + i ==> packet[k] == old(packet[k - 6])
      invariant forall k :: i <= k < 6 || 6 + i <= k < packet.Length ==> packet[k] == old(packet[k])
    {
      var tmp := packet[6 + i];
      packet[6 + i] := packet[i];
      packet[i] := tmp;
    }
  }

  // ---------------------------------------------------------------- little-endian words

  /** The 64-bit word in eight bytes, lowest first. */
  function Word(b: seq<bv8>): bv64
    requires |b| == 8
  {
    (b[0] as bv64) | (b[1] as bv64 << 8) | (b[2] as bv64 << 16) | (b[3] as bv64 << 24)
    | (b[4] as bv64 << 32) | (b[5] as bv64 << 40) | (b[6] as bv64 << 48) | (b[7] as bv64 << 56)
  }

  function Bytes(w: bv64): (b: seq<bv8>)
    ensures |b| == 8
  {
    [(w & 0xff) as bv8, ((w >> 8) & 0xff) as bv8, ((w >> 16) & 0xff) as bv8, ((w >> 24) & 0xff) as bv8,
     ((w >> 32) & 0xff) as bv8, ((w >> 40) & 0xff) as bv8, ((w >> 48) & 0xff) as bv8, ((w >> 56) & 0xff) as bv8]
  }

  method Load(packet: array<bv8>, at: nat) returns (w: bv64)
    requires at + 8 <= packet.Length
    ensures Bytes(w) == packet[..][at..at + 8]
  {
    w := Word(packet[at..at + 8]);
    BytesOfWord(packet[at..at + 8]);
    assert packet[..][at..at + 8] == packet[at..at + 8];
  }

  method Store(packet: array<bv8>, at: nat, w: bv64, ghost bytes: seq<bv8>)
    requires at + 8 <= packet.Length && bytes == Bytes(w)
    modifies packet
    ensures packet[..] == old(packet[..])[..at] + bytes + old(packet[..])[at + 8..]
  {
    var b := Bytes(w);
    for i := 0 to 8
      invariant packet[..at] == old(packet[..at]) && packet[at..at + i] == b[..i]
      invariant packet[at + 8..] == old(packet[at + 8..])
    {
      packet[at + i] := b[i];
    }
    assert packet[..] == packet[..at] + packet[at..at + 8] + packet[at + 8..];
  }

  /** A word is stored as the bytes it was loaded from. */
  lemma BytesOfWord(b: seq<bv8>)
    requires |b| == 8
    ensures Bytes(Word(b)) == b
  {
  }

  /** The low six bytes of one word under the high two bytes of another. */
  function Mixed(low: bv64, high: bv64): bv64 {
    (low & MASK) | (high & !MASK)
  }

  lemma BytesOfMixed(low: bv64, high: bv64)
    ensures Bytes(Mixed(low, high)) == Bytes(low)[..6] + Bytes(high)[6..]
  {
  }

  /** What the two overlapping stores leave is the packet with its addresses exchanged. */
  lemma StoresOverlap(p: seq<bv8>)
    requires |p| >= 14
    ensures p[6..14][..6] + (p[0..8][..6] + p[6..14][6..]) + p[14..] == Swapped(p)
  {
  }

  /** `pp_swap_mac_fast`: two overlapping word loads and stores do the same as the byte loop. */
  method SwapMacFast(packet: array<bv8>)
    requires packet.Length >= 14
    modifies packet
    ensures packet[..] == Swapped(old(packet[..]))
  {
    ghost var p := packet[..];
    var srcMac := Load(packet, 0);
    var dstMac := Load(packet, 6);
    BytesOfMixed(srcMac, dstMac);
    StoreBoth(packet, dstMac, Mixed(srcMac, dstMac), p[6..14], p[0..8][..6] + p[6..14][6..]);
    StoresOverlap(p);
  }

  /** The two stores of `pp_swap_mac_fast`. */
  method StoreBoth(packet: array<bv8>, first: bv64, second: bv64, ghost a: seq<bv8>, ghost b: seq<bv8>)
    requires packet.Length >= 14 && a == Bytes(first) && b == Bytes(second)
    modifies packet
    ensures packet[..] == a[..6] + b + old(packet[..])[14..]
  {
    Store(packet, 0, first, a);
    Store(packet, 6, second, b);
  }
}
