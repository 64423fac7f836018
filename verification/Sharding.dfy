/** Shard selection: the count is rounded up to a power of two so that masking a hash is the
    remainder modulo the count. */
module Sharding {
  import opened Bytes

  function Pow2(k: nat): (p: nat)
    ensures p >= 1
  {
    if k == 0 then 1 else 2 * Pow2(k - 1)
  }

  ghost predicate IsPow2(n: nat) {
    exists k: nat :: Pow2(k) == n
  }

  /** Doubling until the request is covered: `std::bit_ceil`. */
  function BitCeil(requested: nat): nat {
    BitCeilFrom(1, requested)
  }

  function BitCeilFrom(p: nat, requested: nat): nat
    requires p >= 1
    decreases requested - p
  {
    if p >= requested then p else BitCeilFrom(2 * p, requested)
  }

  /** A zero request is refused; any other is rounded up. */
  function NormalizeShardCount(requested: nat): Option<nat> {
    if requested == 0 then None else Some(BitCeil(requested))
  }

  lemma {:induction false} Pow2Grows(j: nat, k: nat)
    requires j <= k
    ensures Pow2(j) <= Pow2(k)
    decreases k - j
  {
    if j < k {
      Pow2Grows(j, k - 1);
    }
  }

  lemma {:induction false} BitCeilFromLeast(j: nat, requested: nat, k: nat)
    requires Pow2(k) >= requested && (j == 0 || Pow2(j - 1) < requested)
    ensures BitCeilFrom(Pow2(j), requested) <= Pow2(k)
    ensures IsPow2(BitCeilFrom(Pow2(j), requested)) && BitCeilFrom(Pow2(j), requested) >= requested
    decreases requested - Pow2(j)
  {
    if Pow2(j) >= requested {
      if j > 0 {
        if k < j {
          Pow2Grows(k, j - 1);
        }
        Pow2Grows(j, k);
      } else {
        Pow2Grows(0, k);
      }
    } else {
      assert Pow2(j + 1) == 2 * Pow2(j);
      BitCeilFromLeast(j + 1, requested, k);
    }
  }

  lemma {:induction false} Pow2Covers(n: nat)
    ensures Pow2(n) > n
  {
    if n > 0 {
      Pow2Covers(n - 1);
    }
  }

  /** The normalized count is the least power of two that is not below the request. */
  lemma BitCeilIsLeast(requested: nat)
    ensures IsPow2(BitCeil(requested)) && BitCeil(requested) >= requested
    ensures forall k: nat | Pow2(k) >= requested :: BitCeil(requested) <= Pow2(k)
  {
    assert Pow2(0) == 1;
    Pow2Covers(requested);
    BitCeilFromLeast(0, requested, requested);
    forall k: nat | Pow2(k) >= requested
      ensures BitCeil(requested) <= Pow2(k)
    {
      BitCeilFromLeast(0, requested, k);
    }
  }

  /** Bitwise conjunction of two nonnegative integers. */
  function BitAnd(a: nat, b: nat): nat {
    if a == 0 || b == 0 then 0
    else 2 * BitAnd(a / 2, b / 2) + (if a % 2 == 1 && b % 2 == 1 then 1 else 0)
  }

  lemma ModDouble(h: nat, p: nat)
    requires p >= 1
    ensures h % (2 * p) == 2 * ((h / 2) % p) + h % 2
  {
    var q, r := (h / 2) / p, (h / 2) % p;
    assert h / 2 == q * p + r;
    assert h == (2 * p) * q + (2 * r + h % 2) by {
      assert h == 2 * (h / 2) + h % 2;
      assert 2 * (q * p) == (2 * p) * q;
    }
    ModUnique(h, 2 * p, q, 2 * r + h % 2);
  }

  lemma {:induction false} MulGap(d: nat, a: nat, b: nat)
    requires a < b
    ensures d * a + d <= d * b
    decreases b
  {
    assert d * b == d * (b - 1) + d;
    if a < b - 1 {
      MulGap(d, a, b - 1);
    }
  }

  lemma ModUnique(x: nat, d: nat, q: nat, r: nat)
    requires d > 0 && x == d * q + r && r < d
    ensures x % d == r
  {
    var q' := x / d;
    assert x == d * q' + x % d;
    if q' > q {
      MulGap(d, q, q');
      assert false;
    } else if q' < q {
      MulGap(d, q', q);
      assert false;
    }
  }

  lemma MaskStep(h: nat, p: nat)
    requires p >= 1
    ensures BitAnd(h, 2 * p - 1) == 2 * BitAnd(h / 2, p - 1) + h % 2
  {
    assert (2 * p - 1) / 2 == p - 1 && (2 * p - 1) % 2 == 1;
  }

  /** Masking with a power of two less one is the remainder modulo that power of two. */
  lemma {:induction false} MaskIsMod(h: nat, k: nat)
    ensures BitAnd(h, Pow2(k) - 1) == h % Pow2(k)
    decreases k
  {
    if k > 0 {
      hide BitAnd;
      MaskIsMod(h / 2, k - 1);
      MaskStep(h, Pow2(k - 1));
      ModDouble(h, Pow2(k - 1));
    }
  }

  /** The shard of a key, for any fixed hash: the hash masked with the count less one. */
  function ShardFor(hash: string -> nat, count: nat, key: string): (j: nat)
    requires count > 0 && IsPow2(count)
    ensures j == hash(key) % count && j < count
  {
    MaskOfCount(hash(key), count);
    BitAnd(hash(key), count - 1)
  }

  lemma MaskOfCount(h: nat, count: nat)
    requires count > 0 && IsPow2(count)
    ensures BitAnd(h, count - 1) == h % count
  {
    var k: nat :| Pow2(k) == count;
    MaskIsMod(h, k);
  }
}
