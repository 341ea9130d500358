/** Bucket sizes and boundary tags of the loft allocator (loft.cc): pure address arithmetic. */
module LoftSizes {
  import opened Basics

  const SMALL_BLOCK_LIMIT := 8192

  const POWER2_BUCKETS := 64

  const BUCKETS := 64 + 128

  /** The largest size whose bucket size fits the `int` that bucket_size() shifts. */
  const LARGEST := 0x4000_0000

  function Pow2(k: nat): (p: nat)
    ensures 0 < p
  {
    if k == 0 then 1 else 2 * Pow2(k - 1)
  }

  /** 64 - __builtin_clzll (x) */
  function BitLength(x: nat): nat {
    if x == 0 then 0 else 1 + BitLength(x / 2)
  }

  function BucketSize(index: nat): nat
    requires index < BUCKETS && (index < POWER2_BUCKETS ==> index <= 30)
  {
    if index < POWER2_BUCKETS then Pow2(index) else (index - POWER2_BUCKETS + 1) * 64
  }

  function BucketIndex(size: nat): nat {
    var n := if size == 0 then 1 else size;
    if n <= SMALL_BLOCK_LIMIT then POWER2_BUCKETS + (n - 1) / 64 else BitLength(n - 1)
  }

  lemma {:induction false} BitLengthBounds(x: nat)
    requires 0 < x
    ensures 0 < BitLength(x) && Pow2(BitLength(x) - 1) <= x < Pow2(BitLength(x))
  {
    if x > 1 {
      BitLengthBounds(x / 2);
    } else {
      assert BitLength(x / 2) == 0;
    }
  }

  lemma {:induction false} Pow2Grows(j: nat, k: nat)
    requires j <= k
    ensures Pow2(j) <= Pow2(k) && (j < k ==> Pow2(j) < Pow2(k))
  {
    if j < k {
      Pow2Grows(j, k - 1);
    }
  }

  lemma Pow2Values()
    ensures Pow2(13) == 8192 && Pow2(30) == LARGEST
  {
    assert Pow2(8) == 256;
    assert Pow2(16) == 65536;
    assert Pow2(24) == 16777216;
  }

  lemma {:induction false} Pow2Multiple(k: nat)
    requires 6 <= k
    ensures Pow2(k) % 64 == 0
  {
    if k == 6 {
      assert Pow2(3) == 8;
    } else {
      Pow2Multiple(k - 1);
    }
  }

  /** The bucket of a large size is the next power of two. */
  lemma LargeIndex(n: nat)
    requires SMALL_BLOCK_LIMIT < n <= LARGEST
    ensures 14 <= BucketIndex(n) <= 30 && Pow2(BucketIndex(n) - 1) < n <= Pow2(BucketIndex(n))
  {
    hide Pow2, BitLength;
    Pow2Values();
    BitLengthBounds(n - 1);
    var k := BitLength(n - 1);
    if k < 14 { Pow2Grows(k, 13); }
    if k > 30 { Pow2Grows(30, k - 1); }
  }

  lemma IndexInRange(n: nat)
    requires n <= LARGEST
    ensures BucketIndex(n) < BUCKETS && (BucketIndex(n) < POWER2_BUCKETS ==> BucketIndex(n) <= 30)
  {
    if SMALL_BLOCK_LIMIT < n { LargeIndex(n); }
  }

  /** The size of the block a request of n bytes gets. */
  function Rounded(n: nat): nat
    requires n <= LARGEST
  {
    IndexInRange(n);
    BucketSize(BucketIndex(n))
  }

  lemma RoundedUp(n: nat)
    requires n <= LARGEST
    ensures 0 < n ==> n <= Rounded(n)
    ensures 64 <= Rounded(n) <= LARGEST && Rounded(n) % 64 == 0
    ensures n <= SMALL_BLOCK_LIMIT ==> Rounded(n) <= SMALL_BLOCK_LIMIT && Rounded(n) < n + 64 + if n == 0 then 1 else 0
  {
    hide Pow2, BitLength;
    if SMALL_BLOCK_LIMIT < n {
      LargeIndex(n);
      Pow2Values();
      Pow2Grows(13, BucketIndex(n));
      Pow2Grows(BucketIndex(n), 30);
      Pow2Multiple(BucketIndex(n));
    }
  }

  /** Rounding a block size again changes nothing, so do_free() accepts the size of every block it is given. */
  lemma FixedPoint(n: nat)
    requires n <= LARGEST
    ensures Rounded(n) <= LARGEST && Rounded(Rounded(n)) == Rounded(n)
    ensures BucketIndex(Rounded(n)) == BucketIndex(n)
  {
    hide Pow2, BitLength;
    RoundedUp(n);
    if SMALL_BLOCK_LIMIT < n {
      var r, k := Rounded(n), BucketIndex(n);
      LargeIndex(n);
      LargeIndex(r);
      var j := BucketIndex(r);
      if j < k { Pow2Grows(j, k - 1); }
      if k < j { Pow2Grows(k, j - 1); }
    }
  }

  lemma RoundedMonotone(n: nat, m: nat)
    requires n <= m <= LARGEST
    ensures Rounded(n) <= Rounded(m)
  {
    hide Pow2, BitLength;
    RoundedUp(n);
    RoundedUp(m);
    if SMALL_BLOCK_LIMIT < n {
      LargeIndex(n);
      LargeIndex(m);
      if BucketIndex(m) < BucketIndex(n) { Pow2Grows(BucketIndex(m), BucketIndex(n) - 1); }
      Pow2Grows(Min(BucketIndex(n), BucketIndex(m)), BucketIndex(m));
    }
  }

  /** A request gets the least of all block sizes that holds it. */
  lemma LeastSize(n: nat)
    requires n <= LARGEST
    ensures n <= Rounded(n) && forall m: nat :: m <= LARGEST && n <= Rounded(m) ==> Rounded(n) <= Rounded(m)
  {
    hide Pow2, BitLength;
    RoundedUp(n);
    forall m: nat | m <= LARGEST && n <= Rounded(m) ensures Rounded(n) <= Rounded(m) {
      FixedPoint(m);
      RoundedMonotone(n, Rounded(m));
    }
  }

  /** The sizes blocks come in: multiples of 64 up to 8192 bytes, then powers of two. */
  predicate IsBlockSize(m: nat) {
    || (64 <= m <= SMALL_BLOCK_LIMIT && m % 64 == 0)
    || (exists k :: 14 <= k <= 30 && m == Pow2(k))
  }

  lemma BlockSizeBelow(m: nat)
    requires IsBlockSize(m)
    ensures m <= LARGEST && Rounded(m) == m
  {
    hide Pow2, BitLength;
    Pow2Values();
    if SMALL_BLOCK_LIMIT < m {
      var k :| 14 <= k <= 30 && m == Pow2(k);
      Pow2Grows(k, 30);
      LargeIndex(m);
      var j := BucketIndex(m);
      Pow2Grows(k - 1, k);
      if j < k { Pow2Grows(j, k - 1); }
      if k < j { Pow2Grows(k, j - 1); }
    } else if !(64 <= m <= SMALL_BLOCK_LIMIT && m % 64 == 0) {
      var k :| 14 <= k <= 30 && m == Pow2(k);
      Pow2Grows(13, k);
      assert false;
    }
  }

  /** A request gets a block of the least size that holds it. */
  lemma LeastBlock(n: nat)
    requires n <= LARGEST
    ensures n <= Rounded(n) && IsBlockSize(Rounded(n)) && forall m: nat :: IsBlockSize(m) && n <= m ==> Rounded(n) <= m
  {
    hide Pow2, BitLength;
    RoundedUp(n);
    if SMALL_BLOCK_LIMIT < n {
      LargeIndex(n);
      assert Rounded(n) == Pow2(BucketIndex(n));
    }
    forall m: nat | IsBlockSize(m) && n <= m ensures Rounded(n) <= m {
      BlockSizeBelow(m);
      RoundedMonotone(n, m);
    }
  }

  // ----- boundary tags

  /** What loft_btalloc() leaves in front of the memory it returns: the block and its size. */
  datatype Tag = Tag(mem: nat, size: nat)

  const TAG := 16

  const ALIGN := 64

  function AlignForward(p: nat): nat { (p + (ALIGN - 1)) / ALIGN * ALIGN }

  predicate Overlap(a: nat, asize: nat, b: nat, bsize: nat) { a < b + bsize && b < a + asize }

  class Tags {
    /** The boundary tags in memory, by address. */
    var tags: map<nat, Tag>

    /** Tags are intact: each lies inside its block, right in front of the payload. */
    ghost predicate Valid()
      reads this
    {
      forall at :: at in tags ==> TagOk(at, tags[at])
    }

    constructor ()
      ensures Valid() && tags == map[]
    {
      tags := map[];
    }

    /** loft_btalloc() with the block that do_alloc() found for size + 80 bytes: the payload is aligned, and inside
        the block, and does not meet the tag. */
    method BtAlloc(size: nat, mem: nat) returns (p: nat)
      requires Valid() && size + TAG + ALIGN <= LARGEST && 0 < mem && mem % ALIGN == 0
      requires forall at :: at in tags ==> !Overlap(tags[at].mem, tags[at].size, mem, Rounded(size + TAG + ALIGN))
      modifies this
      ensures Valid() && TAG < p && p % ALIGN == 0
              && tags == old(tags)[p - TAG := Tag(mem, Rounded(size + TAG + ALIGN))]
      ensures mem <= p - TAG && p + size <= mem + Rounded(size + TAG + ALIGN)
      ensures forall at :: at in tags ==> !Overlap(at, TAG, p, size)
    {
      var asize := size + TAG;
      asize := asize + ALIGN;
      RoundedUp(asize);
      var blockSize := Rounded(asize);
      var alptr := AlignForward(1 + mem);
      OneStep(mem);
      assert alptr >= mem + TAG && mem + asize >= alptr + size;
      var bt := alptr - TAG;
      forall at | at in tags ensures !Overlap(at, TAG, alptr, size) {
        assert TagOk(at, tags[at]);
      }
      tags := tags[bt := Tag(mem, blockSize)];
      FixedPoint(asize);
      p := alptr;
    }

    /** loft_btfree() finds the block and its size again, and do_free() accepts them. */
    method BtFree(p: nat, size: nat) returns (block: Option<Tag>)
      requires Valid() && (p > 0 ==> TAG < p && p - TAG in tags && p + size <= tags[p - TAG].mem + tags[p - TAG].size)
      requires p > 0 ==> p % ALIGN == 0
      modifies this
      ensures Valid() && block == if p == 0 then None else Some(old(tags)[p - TAG])
      ensures p > 0 ==> tags == old(tags) - {p - TAG}
      ensures block.Some? ==> block.value.size <= LARGEST && Rounded(block.value.size) == block.value.size
    {
      if p == 0 { return None; }
      var bt := tags[p - TAG];
      assert bt.mem != 0;
      assert bt.mem <= p - TAG;
      assert bt.size >= TAG;
      assert bt.size % ALIGN == 0;
      assert p + size <= bt.mem + bt.size;
      tags := tags - {p - TAG};
      block := Some(bt);
    }
  }

  predicate TagOk(at: nat, t: Tag) {
    && 0 < t.mem <= at && at + TAG <= t.mem + t.size
    && t.size <= LARGEST && t.size % ALIGN == 0 && Rounded(t.size) == t.size
  }

  lemma OneStep(mem: nat)
    requires mem % ALIGN == 0
    ensures AlignForward(1 + mem) == mem + ALIGN
  {
  }
}
