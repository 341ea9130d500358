/**
 Several disjoint singly linked lists in one heap of `next` pointers, as they occur around the
 intrusive stack of ase/atomics.hh: each place holds a sequence of nodes, the heap chains them, and
 the last link of every list is null except where a caller is just rewriting it.
 */
module LinkedLists {
  import opened Basics

  type Addr = nat

  datatype Ptr = Null | Ref(addr: Addr)

  type Heap = map<Addr, Ptr>
  type Lists<P> = map<P, seq<Addr>>

  function At<P>(ls: Lists<P>, p: P): seq<Addr> {
    if p in ls then ls[p] else []
  }

  function First(s: seq<Addr>): Ptr {
    if s == [] then Null else Ref(s[0])
  }

  function Get(h: Heap, a: Addr): Ptr {
    if a in h then h[a] else Null
  }

  ghost predicate In<P(!new)>(ls: Lists<P>, a: Addr) {
    exists p :: a in At(ls, p)
  }

  ghost predicate Linked(h: Heap, s: seq<Addr>, i: nat)
    requires i < |s|
  {
    s[i] in h && (i + 1 < |s| ==> h[s[i]] == Ref(s[i + 1]))
  }

  ghost predicate Chained(h: Heap, s: seq<Addr>) {
    forall i {:trigger Linked(h, s, i)} :: 0 <= i < |s| ==> Linked(h, s, i)
  }

  ghost predicate Closed(h: Heap, s: seq<Addr>) {
    s != [] ==> Get(h, Last(s)) == Null
  }

  /** `loose` are the places whose last link is not constrained. */
  ghost predicate Ok<P(!new)>(h: Heap, ls: Lists<P>, loose: set<P>) {
    && (forall p :: Chained(h, At(ls, p)) && Distinct(At(ls, p)))
    && (forall p :: p !in loose ==> Closed(h, At(ls, p)))
    && (forall p, q, a :: a in At(ls, p) && a in At(ls, q) ==> p == q)
  }

  /** What a walker reads at position i. */
  lemma ReadLink(h: Heap, s: seq<Addr>, i: nat)
    requires Chained(h, s) && i < |s|
    ensures s[i] in h
    ensures i + 1 < |s| || Closed(h, s) ==> Get(h, s[i]) == First(s[i + 1..])
  {
    assert Linked(h, s, i);
    if i + 1 == |s| { assert Last(s) == s[i] && s[i + 1..] == []; }
  }

  lemma FrameChain(h: Heap, g: Heap, s: seq<Addr>)
    requires Chained(h, s)
    requires forall a :: a in s && a in h ==> a in g && g[a] == h[a]
    ensures Chained(g, s) && (Closed(h, s) ==> Closed(g, s))
  {
    forall i | 0 <= i < |s| ensures Linked(g, s, i) { assert Linked(h, s, i); }
    if s != [] { assert Linked(h, s, |s| - 1); }
  }

  lemma ChainTail(h: Heap, s: seq<Addr>)
    requires Chained(h, s) && s != []
    ensures Chained(h, s[1..]) && (Closed(h, s) ==> Closed(h, s[1..]))
  {
    forall i | 0 <= i < |s[1..]| ensures Linked(h, s[1..], i) { assert Linked(h, s, i + 1); }
  }

  lemma JoinChains(h: Heap, s: seq<Addr>, t: seq<Addr>)
    requires Chained(h, s) && Chained(h, t) && s != [] && Get(h, Last(s)) == First(t)
    ensures Chained(h, s + t) && (Closed(h, t) ==> Closed(h, s + t))
  {
    var u := s + t;
    forall i | 0 <= i < |u| ensures Linked(h, u, i) {
      if i < |s| { assert Linked(h, s, i); } else { assert Linked(h, t, i - |s|); }
    }
    assert t == [] ==> u == s;
  }

  lemma ListChain<P(!new)>(h: Heap, ls: Lists<P>, loose: set<P>, p: P)
    requires Ok(h, ls, loose)
    ensures Chained(h, At(ls, p)) && (p !in loose ==> Closed(h, At(ls, p)))
  {
  }

  lemma UnallocatedOutside<P(!new)>(h: Heap, ls: Lists<P>, loose: set<P>, a: Addr)
    requires Ok(h, ls, loose) && a !in h
    ensures !In(ls, a)
  {
    forall p ensures a !in At(ls, p) {
      var s := At(ls, p);
      forall i | 0 <= i < |s| ensures s[i] != a { ReadLink(h, s, i); }
    }
  }

  lemma StoreOutside<P(!new)>(h: Heap, ls: Lists<P>, loose: set<P>, a: Addr, v: Ptr)
    requires Ok(h, ls, loose) && !In(ls, a)
    ensures Ok(h[a := v], ls, loose)
  {
    forall p ensures Chained(h[a := v], At(ls, p)) && (p !in loose ==> Closed(h[a := v], At(ls, p))) {
      assert a !in At(ls, p);
      FrameChain(h, h[a := v], At(ls, p));
    }
  }

  lemma FreeOutside<P(!new)>(h: Heap, ls: Lists<P>, loose: set<P>, a: Addr)
    requires Ok(h, ls, loose) && !In(ls, a)
    ensures Ok(h - {a}, ls, loose)
  {
    forall p ensures Chained(h - {a}, At(ls, p)) && (p !in loose ==> Closed(h - {a}, At(ls, p))) {
      assert a !in At(ls, p);
      FrameChain(h, h - {a}, At(ls, p));
    }
  }

  lemma PushFront<P(!new)>(h: Heap, ls: Lists<P>, loose: set<P>, p: P, a: Addr)
    requires Ok(h, ls, loose) && !In(ls, a)
    requires a in h && h[a] == First(At(ls, p))
    ensures Ok(h, ls[p := [a] + At(ls, p)], loose)
  {
    var ms := ls[p := [a] + At(ls, p)];
    assert a !in At(ls, p);
    forall q ensures Chained(h, At(ms, q)) && Distinct(At(ms, q)) && (q !in loose ==> Closed(h, At(ms, q))) {
      if q == p {
        assert Linked(h, [a], 0);
        JoinChains(h, [a], At(ls, p));
      } else {
        assert At(ms, q) == At(ls, q);
      }
    }
    forall q, r, b | b in At(ms, q) && b in At(ms, r) ensures q == r {
      assert b != a ==> b in At(ls, q) && b in At(ls, r);
      assert b == a ==> b !in At(ls, q) && b !in At(ls, r);
    }
  }

  /** Pop-all: the whole list of one place becomes the list of an empty place. */
  lemma MoveAll<P(!new)>(h: Heap, ls: Lists<P>, loose: set<P>, p: P, q: P)
    requires Ok(h, ls, loose) && p != q && At(ls, q) == [] && p !in loose
    ensures Ok(h, ls[q := At(ls, p)][p := []], loose)
  {
    var ms := ls[q := At(ls, p)][p := []];
    forall r ensures Chained(h, At(ms, r)) && Distinct(At(ms, r)) && (r !in loose ==> Closed(h, At(ms, r))) {
      assert At(ms, r) == if r == p then [] else if r == q then At(ls, p) else At(ls, r);
    }
    forall r, t, b | b in At(ms, r) && b in At(ms, t) ensures r == t {
      assert b in At(ls, if r == q then p else r) && b in At(ls, if t == q then p else t);
    }
  }

  /** One turn of the reversal loop: the first node changes list and points at the other list. */
  lemma ShiftFront<P(!new)>(h: Heap, ls: Lists<P>, loose: set<P>, p: P, q: P)
    requires Ok(h, ls, loose) && p != q && At(ls, p) != []
    ensures var a := At(ls, p)[0];
            Ok(h[a := First(At(ls, q))], ls[p := At(ls, p)[1..]][q := [a] + At(ls, q)], loose)
  {
    var a := At(ls, p)[0];
    var g := h[a := First(At(ls, q))];
    var mid := ls[p := At(ls, p)[1..]];
    DropFront(h, ls, loose, p);
    StoreOutside(h, mid, loose, a, First(At(ls, q)));
    assert At(mid, q) == At(ls, q);
    PushFront(g, mid, loose, q, a);
  }

  lemma DropFront<P(!new)>(h: Heap, ls: Lists<P>, loose: set<P>, p: P)
    requires Ok(h, ls, loose) && At(ls, p) != []
    ensures Ok(h, ls[p := At(ls, p)[1..]], loose)
    ensures !In(ls[p := At(ls, p)[1..]], At(ls, p)[0])
  {
    var s := At(ls, p);
    var ms := ls[p := s[1..]];
    forall r ensures Chained(h, At(ms, r)) && Distinct(At(ms, r)) && (r !in loose ==> Closed(h, At(ms, r))) {
      if r == p {
        ChainTail(h, s);
      } else {
        assert At(ms, r) == At(ls, r);
      }
    }
    forall r, t, b | b in At(ms, r) && b in At(ms, t) ensures r == t {
      assert b in At(ls, r) && b in At(ls, t);
    }
    forall r ensures s[0] !in At(ms, r) {
      if r != p { assert At(ms, r) == At(ls, r) && s[0] in At(ls, p); }
    }
  }

  lemma StoreLast<P(!new)>(h: Heap, ls: Lists<P>, loose: set<P>, p: P, v: Ptr)
    requires Ok(h, ls, loose) && p in loose && At(ls, p) != []
    ensures Ok(h[Last(At(ls, p)) := v], ls, loose)
  {
    var a := Last(At(ls, p));
    var g := h[a := v];
    forall r ensures Chained(g, At(ls, r)) && (r !in loose ==> Closed(g, At(ls, r))) {
      if r != p {
        assert a in At(ls, p) && a !in At(ls, r);
        FrameChain(h, g, At(ls, r));
      } else {
        var s := At(ls, p);
        forall i | 0 <= i < |s| ensures Linked(g, s, i) { assert Linked(h, s, i); }
      }
    }
  }

  /** Pushing a chain: a whole list goes on top of another once its last link points there. */
  lemma JoinFront<P(!new)>(h: Heap, ls: Lists<P>, loose: set<P>, p: P, q: P)
    requires Ok(h, ls, loose) && p != q && q !in loose && At(ls, p) != []
    requires Get(h, Last(At(ls, p))) == First(At(ls, q))
    ensures Ok(h, ls[q := At(ls, p) + At(ls, q)][p := []], loose - {p})
  {
    var s, t := At(ls, p), At(ls, q);
    var ms := ls[q := s + t][p := []];
    forall r
      ensures Chained(h, At(ms, r)) && Distinct(At(ms, r)) && (r !in loose - {p} ==> Closed(h, At(ms, r)))
    {
      if r == q {
        var u := s + t;
        JoinChains(h, s, t);
        forall i, j | 0 <= i < j < |u| ensures u[i] != u[j] {
          if i < |s| <= j { assert u[i] in At(ls, p) && u[j] in At(ls, q); }
        }
      } else {
        assert At(ms, r) == if r == p then [] else At(ls, r);
      }
    }
    forall r, x, b | b in At(ms, r) && b in At(ms, x) ensures r == x {
      assert b in At(ls, r) || (r == q && b in At(ls, p));
      assert b in At(ls, x) || (x == q && b in At(ls, p));
    }
  }
}
