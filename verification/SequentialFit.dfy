/** The sequential best fit allocator with immediate coalescing of memory.cc. */
module SequentialFit {
  import opened Basics
  import opened FreeLists
  import opened LiveBlocks

  /** Extent fields are 32 bit unsigned; arithmetic on them wraps. */
  const WORD := 0x1_0000_0000

  function MemAlign(n: nat, alignment: nat): (r: nat)
    requires 0 < alignment
    ensures n <= r < n + alignment && r % alignment == 0
  {
    RoundsUp(n, alignment);
    alignment * ((n + alignment - 1) / alignment)
  }

  lemma RoundsUp(n: nat, alignment: nat)
    requires 0 < alignment
    ensures var r := alignment * ((n + alignment - 1) / alignment); n <= r < n + alignment && r % alignment == 0
  {
    var q := (n + alignment - 1) / alignment;
    assert n + alignment - 1 == alignment * q + (n + alignment - 1) % alignment;
    var x := alignment * q;
    assert x == alignment * (x / alignment) + x % alignment;
    assert alignment * (q - x / alignment) == x % alignment;
    SmallMultiple(alignment, q - x / alignment);
  }

  class Allocator {
    const alignment: nat
    const memory: array<int>
    var extents: seq<Extent>
    /** The blocks currently in the hands of callers. */
    ghost var live: seq<Extent>

    /** With no block in the hands of callers the free list is the single extent [0, size). */
    lemma AllReleased()
      requires Valid() && live == []
      ensures extents == [Extent(0, memory.Length)]
    {
      AllFree(extents, memory.Length, alignment);
    }

    ghost predicate Valid()
      reads this, memory
    {
      && 0 < memory.Length < WORD && 0 < alignment < WORD && WORD % alignment == 0
      && FreeOk(extents, memory.Length, alignment)
      && LiveOk(live, memory.Length, alignment)
      && Divided(extents, live, memory.Length)
      && Zeroed(extents, memory[..])
    }

    /** A new area, aligned to a power of two as Arena() and create_arena() make it, starts out as one free extent of
        zeros. */
    constructor (bytes: array<int>, align: nat)
      requires 0 < bytes.Length < WORD && 0 < align < WORD && WORD % align == 0 && bytes.Length % align == 0
      modifies bytes
      ensures Valid() && memory == bytes && alignment == align
      ensures extents == [Extent(0, bytes.Length)] && live == []
    {
      memory, alignment := bytes, align;
      extents, live := [], [Extent(0, bytes.Length)];
      new;
      var area := Extent(0, memory.Length);
      WholeArea(area, memory.Length, alignment);
      Release(area);
      Inhabited(live);
      AllReleased();
    }

    method Zero(ext: Extent)
      requires ext.End() <= memory.Length
      modifies memory
      ensures forall b :: 0 <= b < memory.Length ==> memory[b] == if ext.Has(b) then 0 else old(memory[b])
    {
      forall i | ext.start <= i < ext.End() {
        memory[i] := 0;
      }
    }

    /** sum(): the free bytes. */
    method FreeBytes() returns (s: nat)
      requires Valid()
      ensures s == Sum(extents) && s + Sum(live) == memory.Length
    {
      s := 0;
      for i := 0 to |extents|
        invariant s == Sum(extents[..i])
      {
        assert extents[..i + 1] == extents[..i] + [extents[i]];
        SumAppend(extents[..i], extents[i]);
        s := s + extents[i].length;
      }
      assert extents[..|extents|] == extents;
      Conserved(extents, live, memory.Length, alignment);
    }

    method FindBestFit(length: nat) returns (c: int)
      ensures BestFit(extents, length, c)
    {
      c := -1;
      for j := 0 to |extents|
        invariant c < 0 ==> forall i :: |extents| - j <= i < |extents| ==> extents[i].length < length
        invariant c >= 0 ==> |extents| - j <= c < |extents| && length < extents[c].length
        invariant c >= 0 ==> forall i :: |extents| - j <= i < |extents| && length <= extents[i].length ==>
          extents[c].length <= extents[i].length
          && (extents[c].length == extents[i].length ==> extents[c].start <= extents[i].start)
      {
        var i := |extents| - 1 - j;
        if length > extents[i].length {
          continue;
        }
        if length == extents[i].length {
          return i;
        }
        if c < 0 || extents[i].length < extents[c].length
           || (extents[i].length == extents[c].length && extents[i].start < extents[c].start) {
          c := i;
        }
      }
    }

    /** The search loop of release_ext. */
    method FindTouching(ext: Extent) returns (after: int, before: int)
      requires FreeOk(extents, memory.Length, alignment) && Releasable(extents, ext, memory.Length, alignment)
      ensures Touching(extents, ext, after, before)
    {
      after, before := -1, -1;
      for i := 0 to |extents|
        invariant -1 <= after < i && -1 <= before < i
        invariant if after < 0 then forall k :: 0 <= k < i ==> extents[k].End() != ext.start
                  else extents[after].End() == ext.start
        invariant if before < 0 then forall k :: 0 <= k < i ==> extents[k].start != ext.End()
                  else extents[before].start == ext.End()
      {
        assert extents[i] in extents;
        if ext.start == extents[i].End() {
          after := i;
          if before >= 0 { break; }
        } else if ext.End() == extents[i].start {
          before := i;
          if after >= 0 { break; }
        } else {
          assert !(ext.End() > extents[i].start && ext.start < extents[i].End());
        }
      }
    }

    /** Changes nothing when its first two checks fail; otherwise the extent joins the free list, with its bytes
        zeroed, in one piece with its free neighbours. It may be a block, a part of one, or parts of several: what
        callers keep of their blocks stays theirs. */
    method Release(ext: Extent)
      requires Valid() && ext.start < WORD && ext.length < WORD
      requires ext.length > 0 && (ext.start + ext.length) % WORD <= memory.Length ==> Releasing(ext)
      modifies this, memory
      ensures Valid()
      ensures ext.length == 0 || (ext.start + ext.length) % WORD > memory.Length ==>
                extents == old(extents) && live == old(live) && memory[..] == old(memory[..])
      ensures ext.length > 0 && (ext.start + ext.length) % WORD <= memory.Length ==>
                && (forall b :: Covers(extents, b) <==> old(Covers(extents, b)) || ext.Has(b))
                && live == Cut(old(live), ext)
                && (forall b :: Covers(live, b) <==> old(Covers(live, b)) && !ext.Has(b))
                && (ext in old(live) ==> forall e :: e in live <==> e in old(live) && e != ext)
                && (forall b :: 0 <= b < memory.Length ==> memory[b] == if ext.Has(b) then 0 else old(memory[b]))
    {
      if !(ext.length > 0) { return; }
      if !((ext.start + ext.length) % WORD <= memory.Length) { return; }
      LiveReleasable(extents, live, ext, memory.Length, alignment);
      Zero(ext);
      var after, before := FindTouching(ext);
      ReleaseKeeps(extents, live, ext, after, before, memory.Length, alignment);
      if ext in live { CutWhole(live, ext, memory.Length, alignment); }
      Splice(ext, after, before);
      live := Cut(live, ext);
    }

    /** What Arena::release and the ownership of the bytes ask for: an aligned extent of bytes that were handed out. */
    ghost predicate Releasing(ext: Extent)
      reads this
    {
      Good(ext, memory.Length, alignment) && forall b :: ext.Has(b) ==> Covers(live, b)
    }

    /** alloc_ext. The aligned length is truncated to 32 bits; it succeeds exactly when the free bytes hold a run
        of the truncated length, and then cuts it from the start of the best fit, all bytes zero. */
    method Alloc(ext: Extent) returns (ok: bool, block: Extent)
      requires Valid() && ext.start < WORD && ext.length < WORD
      modifies this
      ensures Valid()
      ensures var n := MemAlign(ext.length, alignment) % WORD;
              && (ok <==> ext.start == 0 && ext.length > 0 && old(HasRun(extents, n)))
              && (ok ==> block.length == n && FitsAt(old(extents), n, block.start))
      ensures !ok || block.length == 0 ==> extents == old(extents) && live == old(live)
      ensures !ok ==> block == ext
      ensures ok && block.length > 0 ==>
                && Good(block, memory.Length, alignment)
                && live == old(live) + [block] && block !in old(live)
                && (forall b :: Covers(extents, b) <==> old(Covers(extents, b)) && !block.Has(b))
                && (forall b :: block.Has(b) ==> memory[b] == 0)
    {
      if !(ext.start == 0) { return false, ext; }
      if !(ext.length > 0) { return false, ext; }
      hide BestFit, HasRun, MemAlign, Good, Covers;
      var aligned := MemAlign(ext.length, alignment) % WORD;
      Truncation(ext.length, alignment);
      var c := FindBestFit(aligned);
      FitIffRun(extents, memory.Length, alignment, aligned, c);
      if c < 0 { return false, ext; }
      ok := true;
      block := Carve(c, aligned);
    }

    method Carve(c: nat, n: nat) returns (block: Extent)
      requires Valid() && c < |extents| && n <= extents[c].length && n % alignment == 0
      modifies this
      ensures Valid() && block == Extent(old(extents)[c].start, n)
      ensures n == 0 ==> extents == old(extents) && live == old(live)
      ensures n > 0 ==>
                && Good(block, memory.Length, alignment)
                && live == old(live) + [block] && block !in old(live)
                && (forall b :: Covers(extents, b) <==> old(Covers(extents, b)) && !block.Has(b))
                && (forall b :: block.Has(b) ==> memory[b] == 0)
    {
      hide FreeOk, LiveOk, Divided, Covers, Taken;
      block := Extent(extents[c].start, n);
      if n > 0 {
        AllocKeeps(extents, live, c, n, memory.Length, alignment);
        live := live + [block];
      } else {
        NothingTaken(extents, c, memory.Length, alignment);
      }
      Take(c, n);
    }

    /** The cut at the end of alloc_ext. */
    method Take(c: nat, n: nat)
      requires c < |extents| && n <= extents[c].length
      modifies this`extents
      ensures extents == Taken(old(extents), c, n)
    {
      if extents[c].length > n {
        extents := extents[c := Extent(extents[c].start + n, extents[c].length)];
        extents := extents[c := Extent(extents[c].start, extents[c].length - n)];
      } else {
        extents := extents[c := extents[|extents| - 1]];
        extents := extents[..|extents| - 1];
      }
    }

    /** A caller writes to a byte of its block. */
    method Store(b: nat, value: int)
      requires Valid() && b < memory.Length && Covers(live, b)
      modifies memory
      ensures Valid() && memory[..] == old(memory[..])[b := value]
    {
      memory[b] := value;
    }

    /** Callers hand back all their bytes, in any order and in any pieces, for instance block by block. */
    method ReleaseAll(order: seq<Extent>)
      requires Valid() && LiveOk(order, memory.Length, alignment) && forall b :: Covers(order, b) <==> Covers(live, b)
      modifies this, memory
      ensures Valid() && live == [] && extents == [Extent(0, memory.Length)]
    {
      hide Covers, FreeOk, Divided;
      for i := 0 to |order|
        invariant Valid() && forall b :: Covers(live, b) <==> Covers(order[i..], b)
      {
        NextPiece(order, i, memory.Length, alignment);
        Release(order[i]);
      }
      assert order[|order|..] == [];
      NoneCovers();
      NothingLeft(live, memory.Length, alignment);
      AllReleased();
    }

    /** The merging at the end of release_ext. */
    method Splice(ext: Extent, after: int, before: int)
      requires -1 <= after < |extents| && -1 <= before < |extents| && (after == before ==> after == -1)
      requires after >= 0 ==> extents[after].End() == ext.start
      modifies this`extents
      ensures extents == Released(old(extents), ext, after, before)
    {
      if after >= 0 {
        extents := extents[after := Extent(extents[after].start, extents[after].length + ext.length)];
        if before >= 0 {
          extents := extents[after := Extent(extents[after].start, extents[after].length + extents[before].length)];
          extents := extents[..before] + extents[before + 1..];
        }
      } else if before >= 0 {
        extents := extents[before := Extent(extents[before].start, extents[before].length + ext.length)];
        extents := extents[before := Extent(ext.start, extents[before].length)];
      } else {
        extents := extents + [ext];
      }
    }
  }

  lemma NextPiece(order: seq<Extent>, i: nat, size: nat, alignment: nat)
    requires LiveOk(order, size, alignment) && i < |order|
    ensures Good(order[i], size, alignment)
    ensures forall b :: order[i].Has(b) ==> Covers(order[i..], b)
    ensures forall b :: Covers(order[i + 1..], b) <==> Covers(order[i..], b) && !order[i].Has(b)
  {
    assert order[i] in order && order[i] in order[i..];
    assert order[i..] == [order[i]] + order[i + 1..];
    ConcatCovers([order[i]], order[i + 1..]);
    OneCovers(order[i]);
    forall b | Covers(order[i + 1..], b) ensures !order[i].Has(b) {
      var e :| e in order[i + 1..] && e.Has(b);
      var k :| 0 <= k < |order| - i - 1 && order[i + 1..][k] == e;
      assert order[i + 1 + k] == e && e in order && order[i + 1 + k] != order[i];
      assert Apart(e, order[i]);
    }
  }

  lemma NoneCovers()
    ensures forall b :: !Covers([], b)
  {
  }

  lemma NothingLeft(live: seq<Extent>, size: nat, alignment: nat)
    requires LiveOk(live, size, alignment) && forall b :: !Covers(live, b)
    ensures live == []
  {
    if live != [] {
      assert live[0] in live && live[0].Has(live[0].start);
      assert Covers(live, live[0].start);
      assert false;
    }
  }

  ghost predicate Zeroed(xs: seq<Extent>, bytes: seq<int>) {
    forall b :: 0 <= b < |bytes| && Covers(xs, b) ==> bytes[b] == 0
  }

  /** The best fit for n bytes starts there. */
  ghost predicate FitsAt(xs: seq<Extent>, n: nat, start: nat) {
    exists c: nat :: c < |xs| && BestFit(xs, n, c) && xs[c].start == start
  }

  lemma NothingTaken(xs: seq<Extent>, c: nat, size: nat, alignment: nat)
    requires FreeOk(xs, size, alignment) && c < |xs|
    ensures Taken(xs, c, 0) == xs
  {
    assert xs[c] in xs;
  }

  lemma FitIffRun(xs: seq<Extent>, size: nat, alignment: nat, n: nat, c: int)
    requires FreeOk(xs, size, alignment) && BestFit(xs, n, c)
    ensures HasRun(xs, n) <==> c >= 0
    ensures c >= 0 ==> c < |xs| && n <= xs[c].length
  {
    RunIffExtent(xs, size, alignment, n);
    if c >= 0 { assert xs[c] in xs; }
  }

  lemma AllocKeeps(xs: seq<Extent>, live: seq<Extent>, c: nat, n: nat, size: nat, alignment: nat)
    requires FreeOk(xs, size, alignment) && LiveOk(live, size, alignment) && Divided(xs, live, size)
    requires 0 < alignment && c < |xs| && 0 < n <= xs[c].length && n % alignment == 0
    ensures var ys, block := Taken(xs, c, n), Extent(xs[c].start, n);
            && FreeOk(ys, size, alignment)
            && LiveOk(live + [block], size, alignment) && block !in live
            && Divided(ys, live + [block], size)
            && Good(block, size, alignment)
            && (forall b :: Covers(ys, b) <==> Covers(xs, b) && !block.Has(b))
            && (forall b :: block.Has(b) ==> Covers(xs, b))
  {
    hide FreeOk, Taken;
    var block := Extent(xs[c].start, n);
    TakenOk(xs, c, n, size, alignment);
    BlockWasFree(xs, live, c, block, size);
    AppendElements(live, block);
    AppendCovers(live, block);
  }

  lemma AppendCovers(live: seq<Extent>, e: Extent)
    ensures forall b :: Covers(live + [e], b) <==> Covers(live, b) || e.Has(b)
  {
    assert e in live + [e];
    forall b | Covers(live, b) ensures Covers(live + [e], b) {
      var f :| f in live && f.Has(b);
      assert f in live + [e];
    }
  }

  lemma BlockWasFree(xs: seq<Extent>, live: seq<Extent>, c: nat, block: Extent, size: nat)
    requires Divided(xs, live, size) && c < |xs| && 0 < block.length <= xs[c].length && block.start == xs[c].start
    requires block.End() <= size
    ensures block !in live && forall f :: f in live && 0 < f.length ==> Apart(f, block)
    ensures forall b :: block.Has(b) ==> Covers(xs, b)
  {
    assert forall b :: block.Has(b) ==> xs[c].Has(b);
    OneCovers(block);
    forall f | f in live && 0 < f.length ensures Apart(f, block) {
      if !Apart(f, block) {
        var b := CommonByte(live, f, [block], block);
        assert false;
      }
    }
  }

  /** Truncation happens exactly for the last lengths below 2^32, and leaves nothing. */
  lemma Truncation(length: nat, alignment: nat)
    requires 0 < alignment < WORD && WORD % alignment == 0 && length < WORD
    ensures var n := MemAlign(length, alignment);
            && n % WORD == (if length <= WORD - alignment then n else 0)
            && (n % WORD) % alignment == 0
            && (n < WORD <==> length <= WORD - alignment)
  {
    var n := MemAlign(length, alignment);
    if n < WORD {
      SubMod(WORD, n, alignment);
      MultipleBelow(WORD - n, alignment);
    } else {
      SubMod(n, WORD, alignment);
      MultipleBelow(n - WORD, alignment);
    }
  }

  lemma MultipleBelow(n: nat, alignment: nat)
    requires 0 < alignment && n % alignment == 0
    ensures n == 0 || alignment <= n
  {
  }

  /** The success test of Alloc is the intended one, for the true aligned length, exactly when the length is not
      among the last before 2^32 or nothing is free: else it reports success with an empty block. */
  lemma TruncationExact(xs: seq<Extent>, size: nat, length: nat, alignment: nat)
    requires 0 < alignment < WORD && WORD % alignment == 0 && length < WORD && size < WORD
             && FreeOk(xs, size, alignment)
    ensures var n := MemAlign(length, alignment);
            (HasRun(xs, n % WORD) <==> HasRun(xs, n)) <==> (length <= WORD - alignment || xs == [])
  {
    var n := MemAlign(length, alignment);
    Truncation(length, alignment);
    RunIffExtent(xs, size, alignment, n);
    RunIffExtent(xs, size, alignment, 0);
    assert xs != [] ==> xs[0] in xs;
  }

  lemma WholeArea(area: Extent, size: nat, alignment: nat)
    requires area == Extent(0, size) && 0 < size && 0 < alignment && size % alignment == 0
    ensures FreeOk([], size, alignment) && LiveOk([area], size, alignment) && Divided([], [area], size)
  {
    assert area in [area];
    assert forall b :: 0 <= b < size ==> area.Has(b);
  }

  lemma CommonByte(xs: seq<Extent>, e: Extent, ys: seq<Extent>, f: Extent) returns (b: int)
    requires e in xs && f in ys && 0 < e.length && 0 < f.length && !Apart(e, f)
    ensures Covers(xs, b) && Covers(ys, b) && e.Has(b) && f.Has(b)
  {
    b := Max(e.start, f.start);
    assert e.Has(b) && f.Has(b);
  }

  lemma LiveReleasable(xs: seq<Extent>, live: seq<Extent>, ext: Extent, size: nat, alignment: nat)
    requires FreeOk(xs, size, alignment) && LiveOk(live, size, alignment) && Divided(xs, live, size)
    requires Good(ext, size, alignment) && forall b :: ext.Has(b) ==> Covers(live, b)
    ensures Releasable(xs, ext, size, alignment)
    ensures ext in live ==> forall f :: f in live ==> f == ext || Apart(f, ext)
  {
    forall e | e in xs ensures Apart(e, ext) {
      if !Apart(e, ext) {
        OneCovers(ext);
        assert ext in [ext];
        var b := CommonByte(xs, e, [ext], ext);
        assert false;
      }
    }
  }

  lemma ReleaseKeeps(xs: seq<Extent>, live: seq<Extent>, ext: Extent, after: int, before: int, size: nat,
                     alignment: nat)
    requires FreeOk(xs, size, alignment) && LiveOk(live, size, alignment) && Divided(xs, live, size)
    requires Releasable(xs, ext, size, alignment) && Touching(xs, ext, after, before)
    ensures var ys := Released(xs, ext, after, before);
            && (after == before ==> after == -1)
            && FreeOk(ys, size, alignment)
            && LiveOk(Cut(live, ext), size, alignment)
            && Divided(ys, Cut(live, ext), size)
            && (forall b :: Covers(ys, b) <==> Covers(xs, b) || ext.Has(b))
            && (forall b :: Covers(Cut(live, ext), b) <==> Covers(live, b) && !ext.Has(b))
  {
    hide FreeOk, Touching, Released, Distinct, Covers, Good, Cut;
    ReleasedOk(xs, ext, after, before, size, alignment);
    assert Good(ext, size, alignment);
    CutOk(live, ext, size, alignment);
    TwoNeighbours(xs, ext, after, before, size, alignment);
  }

  lemma TwoNeighbours(xs: seq<Extent>, ext: Extent, after: int, before: int, size: nat, alignment: nat)
    requires Touching(xs, ext, after, before) && Releasable(xs, ext, size, alignment)
    ensures after == before ==> after == -1
  {
  }
}
