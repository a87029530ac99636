/** Machine words, truncated subtraction and finite sums, shared by all modules. */
module Words {

  const MAX64: nat := 0xFFFF_FFFF_FFFF_FFFF

  /** `size_t` and `uint64_t` of the device. */
  type u64 = x: int | 0 <= x < 0x1_0000_0000_0000_0000

  /** `uint32_t` of the device. */
  type u32 = x: int | 0 <= x < 0x1_0000_0000

  /** What a 64-bit register holds after an arithmetic result `x`. */
  function Wrap64(x: int): (r: u64)
    ensures 0 <= x < 0x1_0000_0000_0000_0000 ==> r == x
  {
    x % 0x1_0000_0000_0000_0000
  }

  /** What a 32-bit register holds after an arithmetic result `x`. */
  function Wrap32(x: int): (r: u32)
    ensures 0 <= x < 0x1_0000_0000 ==> r == x
  {
    x % 0x1_0000_0000
  }

  /** Incrementing and wrapping commute. */
  lemma WrapStep(c: nat)
    ensures Wrap32(c % 0x1_0000_0000 + 1) == (c + 1) % 0x1_0000_0000
  {
  }

  function Min(a: int, b: int): int {
    if a < b then a else b
  }

  /** Subtraction that stops at zero. */
  function Monus(a: int, b: int): nat {
    if a > b then a - b else 0
  }

  lemma Grow(a: int, b: int, c: nat)
    requires a <= b
    ensures a * c <= b * c
  {
  }

  lemma OneMore(n: int, x: int)
    ensures (n + 1) * x == n * x + x
  {
  }

  lemma CancelLess(a: int, b: int, c: nat)
    requires a * c < b * c
    ensures a < b
  {
    if b <= a {
      Grow(b, a, c);
    }
  }

  function Sum(xs: seq<int>): int {
    if xs == [] then 0 else Sum(xs[..|xs| - 1]) + xs[|xs| - 1]
  }

  lemma SumStep(xs: seq<int>, k: nat)
    requires k < |xs|
    ensures Sum(xs[..k + 1]) == Sum(xs[..k]) + xs[k]
  {
    assert xs[..k + 1][..k] == xs[..k];
  }

  lemma {:induction false} SumWhole(xs: seq<int>)
    ensures xs[..|xs|] == xs && Sum(xs[..|xs|]) == Sum(xs)
  {
    assert xs[..|xs|] == xs;
  }

  /** A pointwise linear relation between four sequences carries over to the sums. */
  lemma {:induction false} SumBalance(a: seq<int>, b: seq<int>, c: seq<int>, d: seq<int>)
    requires |a| == |b| == |c| == |d|
    requires forall i :: 0 <= i < |a| ==> a[i] + b[i] == c[i] + d[i]
    ensures Sum(a) + Sum(b) == Sum(c) + Sum(d)
  {
    if a != [] {
      var n := |a| - 1;
      SumBalance(a[..n], b[..n], c[..n], d[..n]);
    }
  }

  lemma {:induction false} SumLe(a: seq<int>, b: seq<int>)
    requires |a| == |b|
    requires forall i :: 0 <= i < |a| ==> a[i] <= b[i]
    ensures Sum(a) <= Sum(b)
  {
    if a != [] {
      var n := |a| - 1;
      SumLe(a[..n], b[..n]);
    }
  }

  lemma {:induction false} SumZero(a: seq<int>)
    requires forall i :: 0 <= i < |a| ==> a[i] == 0
    ensures Sum(a) == 0
  {
    if a != [] {
      SumZero(a[..|a| - 1]);
    }
  }

  lemma {:induction false} SumNonNeg(a: seq<int>)
    requires forall i :: 0 <= i < |a| ==> a[i] >= 0
    ensures Sum(a) >= 0
    ensures forall i :: 0 <= i < |a| ==> a[i] <= Sum(a)
  {
    if a != [] {
      SumNonNeg(a[..|a| - 1]);
    }
  }

  /** A prefix sum of non-negative numbers is at most the whole sum. */
  lemma {:induction false} SumPrefixLe(a: seq<int>, k: nat)
    requires k <= |a|
    requires forall i :: 0 <= i < |a| ==> a[i] >= 0
    ensures 0 <= Sum(a[..k]) <= Sum(a)
    decreases |a| - k
  {
    SumNonNeg(a[..k]);
    if k < |a| {
      SumStep(a, k);
      SumPrefixLe(a, k + 1);
    } else {
      SumWhole(a);
    }
  }

  lemma {:induction false} SumUpdate(a: seq<int>, k: nat, v: int)
    requires k < |a|
    ensures Sum(a[k := v]) == Sum(a) - a[k] + v
  {
    var n := |a| - 1;
    if k < n {
      SumUpdate(a[..n], k, v);
      assert a[k := v][..n] == a[..n][k := v];
    } else {
      assert a[k := v][..n] == a[..n];
    }
  }

  /** Only one element differs from zero: the sum is that element. */
  lemma {:induction false} SumSingle(a: seq<int>, k: nat)
    requires k < |a|
    requires forall i :: 0 <= i < |a| && i != k ==> a[i] == 0
    ensures Sum(a) == a[k]
  {
    var n := |a| - 1;
    if k == n {
      SumZero(a[..n]);
    } else {
      SumSingle(a[..n], k);
    }
  }

  /** `ps[k]` is the sum of the first `k` elements of `xs`. */
  ghost predicate RunningSums(xs: seq<nat>, ps: seq<nat>) {
    && |ps| == |xs| + 1 && ps[0] == 0 && ps[|xs|] == Sum(xs)
    && (forall k {:trigger xs[k]} :: 0 <= k < |xs| ==> ps[k] + xs[k] == ps[k + 1] <= ps[|xs|])
  }

  lemma PrefixSums(xs: seq<nat>) returns (ps: seq<nat>)
    ensures RunningSums(xs, ps)
  {
    forall k | 0 <= k <= |xs|
      ensures 0 <= Sum(xs[..k]) <= Sum(xs)
    {
      SumPrefixLe(xs, k);
    }
    ps := seq(|xs| + 1, k requires 0 <= k <= |xs| => Sum(xs[..k]));
    SumWhole(xs);
    forall k {:trigger xs[k]} | 0 <= k < |xs|
      ensures ps[k] + xs[k] == ps[k + 1] <= ps[|xs|]
    {
      SumStep(xs, k);
    }
  }
}
