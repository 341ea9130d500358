/** Byte ranges and lists of them, as the sequential fit allocator keeps them. */
module FreeLists {
  import opened Basics

  datatype Extent = Extent(start: nat, length: nat) {
    function End(): nat { start + length }

    predicate Has(b: int) { start <= b < End() }
  }

  predicate Apart(a: Extent, b: Extent) { a.End() <= b.start || b.End() <= a.start }

  /** Disjoint and not adjacent. */
  predicate Separate(a: Extent, b: Extent) { a.End() < b.start || b.End() < a.start }

  /** A non-empty range of an area of `size` bytes that starts and ends at multiples of the alignment. */
  predicate Good(e: Extent, size: nat, alignment: nat) {
    && 0 < e.length && e.End() <= size
    && 0 < alignment && e.start % alignment == 0 && e.length % alignment == 0
  }

  ghost predicate Covers(xs: seq<Extent>, b: int) {
    exists e :: e in xs && e.Has(b)
  }

  /** The free list: good extents, no two of them overlapping or adjacent. */
  ghost predicate FreeOk(xs: seq<Extent>, size: nat, alignment: nat) {
    && Distinct(xs)
    && (forall e :: e in xs ==> Good(e, size, alignment))
    && (forall e, f :: e in xs && f in xs && e != f ==> Separate(e, f))
  }

  /** The blocks handed out: good extents, no two of them overlapping. */
  ghost predicate LiveOk(xs: seq<Extent>, size: nat, alignment: nat) {
    && Distinct(xs)
    && (forall e :: e in xs ==> Good(e, size, alignment))
    && (forall e, f :: e in xs && f in xs && e != f ==> Apart(e, f))
  }

  /** Every byte of the area belongs to a free extent or to a live block, never to both. */
  ghost predicate Divided(xs: seq<Extent>, live: seq<Extent>, size: nat) {
    forall b :: 0 <= b < size ==> (Covers(xs, b) <==> !Covers(live, b))
  }

  function Sum(xs: seq<Extent>): nat {
    if xs == [] then 0 else xs[0].length + Sum(xs[1..])
  }

  function Erase(xs: seq<Extent>, i: nat): seq<Extent>
    requires i < |xs|
  {
    xs[..i] + xs[i + 1..]
  }

  // ----- sums and elements under list surgery

  lemma {:induction false} SumConcat(xs: seq<Extent>, ys: seq<Extent>)
    ensures Sum(xs + ys) == Sum(xs) + Sum(ys)
  {
    if xs == [] {
      assert xs + ys == ys;
    } else {
      SumConcat(xs[1..], ys);
      assert (xs + ys)[1..] == xs[1..] + ys;
    }
  }

  lemma SumAt(xs: seq<Extent>, i: nat, e: Extent)
    requires i < |xs|
    ensures Sum(xs[i := e]) == Sum(xs) - xs[i].length + e.length
    ensures Sum(Erase(xs, i)) == Sum(xs) - xs[i].length
  {
    hide Sum;
    SumConcat(xs[..i], xs[i + 1..]);
    SumInsert(xs[..i], xs[i], xs[i + 1..]);
    SumInsert(xs[..i], e, xs[i + 1..]);
    assert xs == xs[..i] + [xs[i]] + xs[i + 1..];
    assert xs[i := e] == xs[..i] + [e] + xs[i + 1..];
  }

  lemma SumInsert(xs: seq<Extent>, e: Extent, ys: seq<Extent>)
    ensures Sum(xs + [e] + ys) == Sum(xs) + e.length + Sum(ys)
  {
    SumAppend(xs, e);
    SumConcat(xs + [e], ys);
  }

  lemma SumAppend(xs: seq<Extent>, e: Extent)
    ensures Sum(xs + [e]) == Sum(xs) + e.length
  {
    SumConcat(xs, [e]);
    assert [e][1..] == [];
  }

  lemma UpdateElements(xs: seq<Extent>, i: nat, e: Extent)
    requires i < |xs| && Distinct(xs) && (e in xs ==> e == xs[i])
    ensures Distinct(xs[i := e])
    ensures forall f :: f in xs[i := e] <==> (f in xs && f != xs[i]) || f == e
  {
    var ys := xs[i := e];
    forall f ensures f in ys <==> (f in xs && f != xs[i]) || f == e {
      if f in xs && f != xs[i] {
        var k :| 0 <= k < |xs| && xs[k] == f;
        assert ys[k] == f;
      }
      if f == e { assert ys[i] == f; }
    }
  }

  lemma EraseElements(xs: seq<Extent>, i: nat)
    requires i < |xs| && Distinct(xs)
    ensures Distinct(Erase(xs, i))
    ensures forall f :: f in Erase(xs, i) <==> f in xs && f != xs[i]
  {
    var ys := Erase(xs, i);
    forall f ensures f in ys <==> f in xs && f != xs[i] {
      if f in xs && f != xs[i] {
        var k :| 0 <= k < |xs| && xs[k] == f;
        assert ys[if k < i then k else k - 1] == f;
      }
    }
  }

  lemma AppendElements(xs: seq<Extent>, e: Extent)
    requires Distinct(xs) && e !in xs
    ensures Distinct(xs + [e])
    ensures forall f :: f in xs + [e] <==> f in xs || f == e
  {
  }

  // ----- what the invariants mean

  /** n consecutive free bytes (a single one for n = 0). */
  ghost predicate HasRun(xs: seq<Extent>, n: nat) {
    exists b: nat :: RunAt(xs, b, n)
  }

  ghost predicate RunAt(xs: seq<Extent>, b: nat, n: nat) {
    Covers(xs, b) && forall i: nat :: b <= i < b + n ==> Covers(xs, i)
  }

  /** Coalescing completes the free list: a run of free bytes never spans two extents. */
  lemma RunInExtent(xs: seq<Extent>, size: nat, alignment: nat, b: nat, n: nat) returns (e: Extent)
    requires FreeOk(xs, size, alignment) && RunAt(xs, b, n)
    ensures e in xs && e.start <= b && b + n <= e.End()
  {
    e :| e in xs && e.Has(b);
    if b + n > e.End() {
      assert Covers(xs, e.End());
      var f :| f in xs && f.Has(e.End());
      assert false;
    }
  }

  /** There is a run of n free bytes exactly when some extent has n bytes. */
  lemma RunIffExtent(xs: seq<Extent>, size: nat, alignment: nat, n: nat)
    requires FreeOk(xs, size, alignment)
    ensures HasRun(xs, n) <==> exists e :: e in xs && n <= e.length
  {
    if HasRun(xs, n) {
      var b :| RunAt(xs, b, n);
      var e := RunInExtent(xs, size, alignment, b, n);
    }
    if e :| e in xs && n <= e.length {
      assert RunAt(xs, e.start, n);
    }
  }

  /** With nothing handed out, the whole area is one extent again. */
  lemma AllFree(xs: seq<Extent>, size: nat, alignment: nat)
    requires FreeOk(xs, size, alignment) && Divided(xs, [], size) && 0 < size
    ensures xs == [Extent(0, size)]
  {
    var b: nat := 0;
    assert forall i: nat :: 0 <= i < size ==> Covers(xs, i);
    assert RunAt(xs, b, size);
    var e := RunInExtent(xs, size, alignment, b, size);
    assert e == Extent(0, size);
    Singleton(xs, e);
  }

  lemma Singleton<T>(xs: seq<T>, e: T)
    requires Distinct(xs) && e in xs && forall f :: f in xs ==> f == e
    ensures xs == [e]
  {
    var k :| 0 <= k < |xs| && xs[k] == e;
    forall i | 0 <= i < |xs| ensures xs[i] == e {
      assert xs[i] in xs;
    }
    if |xs| > 1 {
      DistinctAt(xs, 0, 1);
      assert false;
    }
  }

  lemma Inhabited<T>(xs: seq<T>)
    ensures xs == [] || exists e :: e in xs
  {
    if xs != [] { assert xs[0] in xs; }
  }

  // ----- release

  /** Where a released extent touches the free list: `after` ends at it, `before` starts at its end. */
  ghost predicate Touching(xs: seq<Extent>, ext: Extent, after: int, before: int) {
    && -1 <= after < |xs| && -1 <= before < |xs|
    && (if after < 0 then forall e :: e in xs ==> e.End() != ext.start else xs[after].End() == ext.start)
    && (if before < 0 then forall e :: e in xs ==> e.start != ext.End() else xs[before].start == ext.End())
  }

  /** The released extent together with its free neighbours. */
  function Merged(xs: seq<Extent>, ext: Extent, after: int, before: int): Extent
    requires -1 <= after < |xs| && -1 <= before < |xs|
  {
    var start := if after >= 0 then xs[after].start else ext.start;
    var below := if after >= 0 then xs[after].length else 0;
    var above := if before >= 0 then xs[before].length else 0;
    Extent(start, below + ext.length + above)
  }

  /** The list surgery of release_ext. */
  function Released(xs: seq<Extent>, ext: Extent, after: int, before: int): seq<Extent>
    requires -1 <= after < |xs| && -1 <= before < |xs|
  {
    var m := Merged(xs, ext, after, before);
    if after >= 0 then
      if before >= 0 then Erase(xs[after := m], before) else xs[after := m]
    else if before >= 0 then xs[before := m]
    else xs + [ext]
  }

  predicate Joins(xs: seq<Extent>, after: int, before: int, e: Extent)
    requires -1 <= after < |xs| && -1 <= before < |xs|
  {
    (after >= 0 && e == xs[after]) || (before >= 0 && e == xs[before])
  }

  /** What a caller may release: a good extent that meets no free one. */
  ghost predicate Releasable(xs: seq<Extent>, ext: Extent, size: nat, alignment: nat) {
    Good(ext, size, alignment) && forall e :: e in xs ==> Apart(e, ext)
  }

  lemma MergedFacts(xs: seq<Extent>, ext: Extent, after: int, before: int, size: nat, alignment: nat)
    requires FreeOk(xs, size, alignment) && Releasable(xs, ext, size, alignment) && Touching(xs, ext, after, before)
    ensures after >= 0 && before >= 0 ==> xs[after] != xs[before]
    ensures Merged(xs, ext, after, before) !in xs
    ensures Good(Merged(xs, ext, after, before), size, alignment)
    ensures forall b :: Merged(xs, ext, after, before).Has(b) <==>
                        ext.Has(b) || (after >= 0 && xs[after].Has(b)) || (before >= 0 && xs[before].Has(b))
  {
    var m := Merged(xs, ext, after, before);
    assert m.Has(ext.start) && forall e :: e in xs ==> !e.Has(ext.start);
    if after >= 0 { assert Good(xs[after], size, alignment); }
    if before >= 0 { assert Good(xs[before], size, alignment); }
    AddMod(ext.length, if after >= 0 then xs[after].length else 0, alignment);
    AddMod(ext.length + if after >= 0 then xs[after].length else 0,
           if before >= 0 then xs[before].length else 0, alignment);
  }

  lemma AddMod(a: nat, b: nat, n: nat)
    requires 0 < n && a % n == 0 && b % n == 0
    ensures (a + b) % n == 0
  {
    var i, j, x := a / n, b / n, a + b;
    assert x == n * (i + j);
    assert x == n * (x / n) + x % n;
    assert n * (i + j - x / n) == x % n;
    SmallMultiple(n, i + j - x / n);
  }

  lemma SmallMultiple(n: nat, k: int)
    requires 0 <= n * k < n
    ensures n * k == 0
  {
    LargeMultiple(n, k);
  }

  lemma LargeMultiple(n: nat, k: int)
    ensures k > 0 ==> n * k >= n
    ensures k < 0 ==> n * k + n <= 0
  {
  }

  lemma ReleasedElements(xs: seq<Extent>, ext: Extent, after: int, before: int)
    requires -1 <= after < |xs| && -1 <= before < |xs| && Distinct(xs)
    requires after >= 0 && before >= 0 ==> xs[after] != xs[before]
    requires Merged(xs, ext, after, before) !in xs
    ensures Distinct(Released(xs, ext, after, before))
    ensures forall e :: e in Released(xs, ext, after, before) <==>
                        (e in xs && !Joins(xs, after, before, e)) || e == Merged(xs, ext, after, before)
    ensures Sum(Released(xs, ext, after, before)) == Sum(xs) + ext.length
  {
    hide Merged, Distinct;
    var m := Merged(xs, ext, after, before);
    if after >= 0 {
      UpdateElements(xs, after, m);
      if before >= 0 { EraseElements(xs[after := m], before); }
    } else if before >= 0 {
      UpdateElements(xs, before, m);
    } else {
      MergedAlone(xs, ext);
      AppendElements(xs, ext);
    }
    ReleasedSum(xs, ext, after, before);
  }

  lemma MergedAlone(xs: seq<Extent>, ext: Extent)
    ensures Merged(xs, ext, -1, -1) == ext
  {
  }

  lemma ReleasedSum(xs: seq<Extent>, ext: Extent, after: int, before: int)
    requires -1 <= after < |xs| && -1 <= before < |xs|
    requires after >= 0 && before >= 0 ==> xs[after] != xs[before]
    ensures Sum(Released(xs, ext, after, before)) == Sum(xs) + ext.length
  {
    hide Sum, Erase;
    var m := Merged(xs, ext, after, before);
    if after >= 0 {
      SumAt(xs, after, m);
      if before >= 0 { SumAt(xs[after := m], before, m); }
    } else if before >= 0 {
      SumAt(xs, before, m);
    } else {
      MergedAlone(xs, ext);
      SumAppend(xs, ext);
    }
  }

  /** A free extent that was not merged lies apart from the merged one, with a gap in between. */
  lemma ApartFromMerged(xs: seq<Extent>, ext: Extent, after: int, before: int, size: nat, alignment: nat, f: Extent)
    requires FreeOk(xs, size, alignment) && Releasable(xs, ext, size, alignment) && Touching(xs, ext, after, before)
    requires f in xs && !Joins(xs, after, before, f)
    ensures Separate(Merged(xs, ext, after, before), f)
  {
    hide Distinct;
    assert Apart(f, ext) && Good(f, size, alignment) && Good(ext, size, alignment);
    if after >= 0 { assert Separate(f, xs[after]) && Good(xs[after], size, alignment); }
    if before >= 0 { assert Separate(f, xs[before]) && Good(xs[before], size, alignment); }
  }

  /** Releasing keeps the free list disjoint, aligned, non-empty and never adjacent. */
  lemma ReleasedOk(xs: seq<Extent>, ext: Extent, after: int, before: int, size: nat, alignment: nat)
    requires FreeOk(xs, size, alignment) && Releasable(xs, ext, size, alignment) && Touching(xs, ext, after, before)
    ensures FreeOk(Released(xs, ext, after, before), size, alignment)
    ensures Sum(Released(xs, ext, after, before)) == Sum(xs) + ext.length
    ensures forall b :: Covers(Released(xs, ext, after, before), b) <==> Covers(xs, b) || ext.Has(b)
  {
    hide Merged, Released, Distinct, Covers, Good, Separate;
    var ys, m := Released(xs, ext, after, before), Merged(xs, ext, after, before);
    MergedFacts(xs, ext, after, before, size, alignment);
    ReleasedElements(xs, ext, after, before);
    forall e, f | e in ys && f in ys && e != f ensures Separate(e, f) {
      if e == m {
        ApartFromMerged(xs, ext, after, before, size, alignment, f);
      } else if f == m {
        ApartFromMerged(xs, ext, after, before, size, alignment, e);
        SeparateBothWays(m, e);
      }
    }
    forall b ensures Covers(ys, b) <==> Covers(xs, b) || ext.Has(b) {
      ReleasedCovers(xs, ys, m, ext, after, before, b);
    }
  }

  lemma SeparateBothWays(e: Extent, f: Extent)
    ensures Separate(e, f) <==> Separate(f, e)
  {
  }

  lemma ReleasedCovers(xs: seq<Extent>, ys: seq<Extent>, m: Extent, ext: Extent, after: int, before: int, b: int)
    requires -1 <= after < |xs| && -1 <= before < |xs|
    requires forall e :: e in ys <==> (e in xs && !Joins(xs, after, before, e)) || e == m
    requires m.Has(b) <==> ext.Has(b) || (after >= 0 && xs[after].Has(b)) || (before >= 0 && xs[before].Has(b))
    ensures Covers(ys, b) <==> Covers(xs, b) || ext.Has(b)
  {
    if Covers(xs, b) {
      var e :| e in xs && e.Has(b);
      assert e in ys || m in ys;
    }
    if ext.Has(b) { assert m in ys; }
    if Covers(ys, b) {
      var e :| e in ys && e.Has(b);
      assert e in xs || e == m;
    }
  }

  // ----- allocation

  /** What best_fit returns: the smallest extent with enough bytes; among several, an exact fit is the last in
      the list and a larger one has the lowest address. */
  ghost predicate BestFit(xs: seq<Extent>, length: nat, c: int) {
    if c < 0 then forall e :: e in xs ==> e.length < length
    else
      && c < |xs| && length <= xs[c].length
      && forall i :: 0 <= i < |xs| && length <= xs[i].length ==>
           && xs[c].length <= xs[i].length
           && (xs[c].length == xs[i].length ==> if xs[c].length == length then i <= c else xs[c].start <= xs[i].start)
  }

  /** The list surgery of alloc_ext: cut `length` bytes off the start of extent c. */
  function Taken(xs: seq<Extent>, c: nat, length: nat): seq<Extent>
    requires c < |xs|
  {
    if xs[c].length > length then xs[c := Extent(xs[c].start + length, xs[c].length - length)]
    else xs[c := xs[|xs| - 1]][..|xs| - 1]
  }

  lemma SwapOut(xs: seq<Extent>, c: nat)
    requires c < |xs| && Distinct(xs)
    ensures var ys := xs[c := xs[|xs| - 1]][..|xs| - 1];
            && Distinct(ys)
            && (forall f :: f in ys <==> f in xs && f != xs[c])
            && Sum(ys) == Sum(xs) - xs[c].length
  {
    hide Distinct, Sum, Erase;
    var n := |xs| - 1;
    var zs := Erase(xs, n);
    EraseElements(xs, n);
    SumAt(xs, n, xs[n]);
    SwapSlices(xs, c);
    if c < n {
      DistinctAt(xs, c, n);
      assert zs[c] == xs[c];
      UpdateElements(zs, c, xs[n]);
      SumAt(zs, c, xs[n]);
    }
  }

  lemma DistinctAt<T>(xs: seq<T>, i: nat, j: nat)
    requires i < j < |xs| && Distinct(xs)
    ensures xs[i] != xs[j]
  {
  }

  lemma SwapSlices(xs: seq<Extent>, c: nat)
    requires c < |xs|
    ensures var n := |xs| - 1;
            && Erase(xs, n) == xs[..n]
            && xs[c := xs[n]][..n] == if c < n then xs[..n][c := xs[n]] else xs[..n]
  {
  }

  lemma TakenElements(xs: seq<Extent>, c: nat, length: nat)
    requires c < |xs| && Distinct(xs) && 0 < length <= xs[c].length
    requires forall e, f :: e in xs && f in xs && e != f ==> Separate(e, f)
    ensures var rest := Extent(xs[c].start + length, xs[c].length - length);
            && Distinct(Taken(xs, c, length))
            && Sum(Taken(xs, c, length)) == Sum(xs) - length
            && forall e :: e in Taken(xs, c, length) <==> (e in xs && e != xs[c]) || (0 < rest.length && e == rest)
  {
    hide Distinct, Sum;
    if xs[c].length > length {
      var rest := Extent(xs[c].start + length, xs[c].length - length);
      assert xs[c] in xs;
      if rest in xs { assert false; }
      UpdateElements(xs, c, rest);
      SumAt(xs, c, rest);
    } else {
      SwapOut(xs, c);
    }
  }

  lemma SubMod(a: nat, b: nat, n: nat)
    requires 0 < n && a % n == 0 && b % n == 0 && b <= a
    ensures (a - b) % n == 0
  {
    var i, j, x := a / n, b / n, a - b;
    assert x == n * (i - j);
    assert x == n * (x / n) + x % n;
    assert n * (i - j - x / n) == x % n;
    SmallMultiple(n, i - j - x / n);
  }

  /** Allocating keeps the free list disjoint, aligned, non-empty and never adjacent. */
  lemma TakenOk(xs: seq<Extent>, c: nat, length: nat, size: nat, alignment: nat)
    requires 0 < alignment && FreeOk(xs, size, alignment) && c < |xs| && 0 < length <= xs[c].length
             && length % alignment == 0
    ensures FreeOk(Taken(xs, c, length), size, alignment)
    ensures Sum(Taken(xs, c, length)) == Sum(xs) - length
    ensures Good(Extent(xs[c].start, length), size, alignment)
    ensures forall b :: Covers(Taken(xs, c, length), b) <==> Covers(xs, b) && !Extent(xs[c].start, length).Has(b)
    ensures forall e :: e in Taken(xs, c, length) ==> Apart(e, Extent(xs[c].start, length))
  {
    hide Taken, Distinct, Covers, Sum;
    var ys, rest, ext := Taken(xs, c, length), Extent(xs[c].start + length, xs[c].length - length),
      Extent(xs[c].start, length);
    assert Good(xs[c], size, alignment);
    TakenElements(xs, c, length);
    AddMod(xs[c].start, length, alignment);
    SubMod(xs[c].length, length, alignment);
    forall b ensures Covers(ys, b) <==> Covers(xs, b) && !ext.Has(b) {
      TakenCovers(xs, ys, c, ext, rest, b);
    }
  }

  lemma TakenCovers(xs: seq<Extent>, ys: seq<Extent>, c: nat, ext: Extent, rest: Extent, b: int)
    requires c < |xs| && xs[c] == Extent(ext.start, ext.length + rest.length) && rest.start == ext.End()
    requires forall e :: e in ys <==> (e in xs && e != xs[c]) || (0 < rest.length && e == rest)
    requires forall e, f :: e in xs && f in xs && e != f ==> Separate(e, f)
    ensures Covers(ys, b) <==> Covers(xs, b) && !ext.Has(b)
  {
    if Covers(ys, b) {
      var e :| e in ys && e.Has(b);
      if e == rest {
        assert xs[c].Has(b);
      } else {
        assert Separate(e, xs[c]);
      }
    }
    if Covers(xs, b) && !ext.Has(b) {
      var e :| e in xs && e.Has(b);
      assert e in ys || rest in ys;
    }
  }
}
