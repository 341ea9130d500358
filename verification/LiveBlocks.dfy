/** The blocks in the hands of callers: what is left of them when a part is released, and how many bytes they hold. */
module LiveBlocks {
  import opened Basics
  import opened FreeLists

  // ----- releasing a part

  /** What is left of a block below and above a released extent. */
  function Pieces(e: Extent, ext: Extent): seq<Extent> {
    var low := Min(e.End(), ext.start);
    var high := Max(e.start, ext.End());
    (if e.start < low then [Extent(e.start, low - e.start)] else [])
    + (if high < e.End() then [Extent(high, e.End() - high)] else [])
  }

  function Cut(live: seq<Extent>, ext: Extent): seq<Extent> {
    if live == [] then [] else Pieces(live[0], ext) + Cut(live[1..], ext)
  }

  /** The extent a lies within b. */
  predicate Within(a: Extent, b: Extent) { b.start <= a.start && a.End() <= b.End() }

  lemma PiecesOk(e: Extent, ext: Extent, size: nat, alignment: nat)
    requires Good(e, size, alignment) && Good(ext, size, alignment)
    ensures LiveOk(Pieces(e, ext), size, alignment)
    ensures forall p :: p in Pieces(e, ext) ==> Within(p, e)
    ensures forall b :: Covers(Pieces(e, ext), b) <==> e.Has(b) && !ext.Has(b)
  {
    AddMod(e.start, e.length, alignment);
    AddMod(ext.start, ext.length, alignment);
    var low, high := Min(e.End(), ext.start), Max(e.start, ext.End());
    if e.start < low { SubMod(low, e.start, alignment); }
    if high < e.End() { SubMod(e.End(), high, alignment); }
    PiecesCover(e, ext);
  }

  lemma PiecesCover(e: Extent, ext: Extent)
    requires 0 < ext.length
    ensures forall b :: Covers(Pieces(e, ext), b) <==> e.Has(b) && !ext.Has(b)
  {
    var ps := Pieces(e, ext);
    forall b | e.Has(b) && !ext.Has(b) ensures Covers(ps, b) {
      if b < ext.start { assert ps[0] in ps && ps[0].Has(b); } else { assert Last(ps) in ps && Last(ps).Has(b); }
    }
  }

  lemma ConcatCovers(xs: seq<Extent>, ys: seq<Extent>)
    ensures forall b :: Covers(xs + ys, b) <==> Covers(xs, b) || Covers(ys, b)
  {
    assert forall e :: e in xs + ys <==> e in xs || e in ys;
  }

  lemma ConcatOk(xs: seq<Extent>, ys: seq<Extent>, size: nat, alignment: nat)
    requires LiveOk(xs, size, alignment) && LiveOk(ys, size, alignment)
    requires forall e, f :: e in xs && f in ys ==> Apart(e, f)
    ensures LiveOk(xs + ys, size, alignment)
  {
    var zs := xs + ys;
    forall i, j | 0 <= i < j < |zs| ensures zs[i] != zs[j] {
      if i < |xs| <= j {
        assert zs[i] in xs && zs[j] in ys;
        assert Good(zs[i], size, alignment) && Apart(zs[i], zs[j]);
      }
    }
  }

  /** The rest of the live blocks is as disjoint and aligned as the blocks were, and lost exactly the extent. */
  lemma {:induction false} CutOk(live: seq<Extent>, ext: Extent, size: nat, alignment: nat)
    requires LiveOk(live, size, alignment) && Good(ext, size, alignment)
    ensures LiveOk(Cut(live, ext), size, alignment)
    ensures forall p :: p in Cut(live, ext) ==> exists e :: e in live && Within(p, e)
    ensures forall b :: Covers(Cut(live, ext), b) <==> Covers(live, b) && !ext.Has(b)
  {
    if live != [] {
      var e, rest := live[0], live[1..];
      hide Pieces, Good, Covers;
      assert live == [e] + rest;
      RestOk(live, size, alignment);
      PiecesOk(e, ext, size, alignment);
      CutOk(rest, ext, size, alignment);
      forall p, q | p in Pieces(e, ext) && q in Cut(rest, ext) ensures Apart(p, q) {
        var f :| f in rest && Within(q, f);
        assert Apart(e, f);
      }
      ConcatOk(Pieces(e, ext), Cut(rest, ext), size, alignment);
      ConcatCovers(Pieces(e, ext), Cut(rest, ext));
      ConcatCovers([e], rest);
      OneCovers(e);
    }
  }

  lemma RestOk(live: seq<Extent>, size: nat, alignment: nat)
    requires LiveOk(live, size, alignment) && live != []
    ensures LiveOk(live[1..], size, alignment) && Good(live[0], size, alignment)
    ensures forall f :: f in live[1..] ==> f in live && f != live[0] && Apart(live[0], f)
  {
    assert live[0] in live;
  }

  lemma OneCovers(e: Extent)
    ensures forall b :: Covers([e], b) <==> e.Has(b)
  {
    assert e in [e];
  }

  /** Releasing a whole block takes just this block off. */
  lemma {:induction false} CutWhole(live: seq<Extent>, ext: Extent, size: nat, alignment: nat)
    requires LiveOk(live, size, alignment) && Good(ext, size, alignment)
    requires forall f :: f in live ==> f == ext || Apart(f, ext)
    ensures forall e :: e in Cut(live, ext) <==> e in live && e != ext
  {
    if live != [] {
      hide Pieces;
      var e, rest := live[0], live[1..];
      assert live == [e] + rest && e in live;
      RestOk(live, size, alignment);
      CutWhole(rest, ext, size, alignment);
      PiecesWhole(e, ext);
    }
  }

  lemma PiecesWhole(e: Extent, ext: Extent)
    requires 0 < e.length && 0 < ext.length && (e == ext || Apart(e, ext))
    ensures Pieces(e, ext) == if e == ext then [] else [e]
  {
  }

  // ----- counting bytes

  /** How many of the first n bytes are covered. */
  ghost function Count(xs: seq<Extent>, n: nat): nat {
    if n == 0 then 0 else Count(xs, n - 1) + if Covers(xs, n - 1) then 1 else 0
  }

  lemma {:induction false} CountFirst(e: Extent, rest: seq<Extent>, n: nat)
    requires forall f :: f in rest ==> Apart(e, f)
    ensures Count([e] + rest, n) == Max(0, Min(e.End(), n) - e.start) + Count(rest, n)
  {
    if n > 0 {
      CountFirst(e, rest, n - 1);
      ConcatCovers([e], rest);
      OneCovers(e);
    }
  }

  lemma {:induction false} CountNone(n: nat)
    ensures Count([], n) == 0
  {
    if n > 0 { CountNone(n - 1); }
  }

  /** The lengths of disjoint extents add up to the number of bytes they cover. */
  lemma {:induction false} SumIsCount(xs: seq<Extent>, size: nat, alignment: nat)
    requires LiveOk(xs, size, alignment)
    ensures Sum(xs) == Count(xs, size)
  {
    if xs == [] {
      CountNone(size);
    } else {
      RestOk(xs, size, alignment);
      SumIsCount(xs[1..], size, alignment);
      CountFirst(xs[0], xs[1..], size);
      assert [xs[0]] + xs[1..] == xs;
    }
  }

  lemma {:induction false} CountBoth(xs: seq<Extent>, live: seq<Extent>, size: nat, n: nat)
    requires Divided(xs, live, size) && n <= size
    ensures Count(xs, n) + Count(live, n) == n
  {
    hide Covers;
    if n > 0 { CountBoth(xs, live, size, n - 1); }
  }

  /** Conservation: free bytes and live bytes add up to the area. */
  lemma Conserved(xs: seq<Extent>, live: seq<Extent>, size: nat, alignment: nat)
    requires FreeOk(xs, size, alignment) && LiveOk(live, size, alignment) && Divided(xs, live, size)
    ensures Sum(xs) + Sum(live) == size
  {
    SumIsCount(xs, size, alignment);
    SumIsCount(live, size, alignment);
    CountBoth(xs, live, size, size);
  }
}
