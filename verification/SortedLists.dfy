/** Sorted arrays: the binary search of utils.hh and the order a stable sort produces. */
module SortedLists {
  import opened Basics

  type Cmp<!E> = (E, E) -> int

  ghost predicate Reflects<E(!new)>(cmp: Cmp<E>) {
    forall a, b :: (cmp(a, b) < 0 <==> cmp(b, a) > 0)
  }

  ghost predicate Chains<E(!new)>(cmp: Cmp<E>) {
    forall a, b, c :: cmp(a, b) <= 0 && cmp(b, c) <= 0 ==> cmp(a, c) <= 0
  }

  /** A comparison function of three outcomes: a total preorder. */
  ghost predicate Lawful<E(!new)>(cmp: Cmp<E>) {
    Reflects(cmp) && Chains(cmp)
  }

  ghost predicate Sorted<E>(cmp: Cmp<E>, s: seq<E>) {
    forall i, j :: 0 <= i < j < |s| ==> cmp(s[i], s[j]) <= 0
  }

  ghost predicate StrictlySorted<E>(cmp: Cmp<E>, s: seq<E>) {
    forall i, j :: 0 <= i < j < |s| ==> cmp(s[i], s[j]) < 0
  }

  lemma Orders<E(!new)>(cmp: Cmp<E>, a: E, b: E, c: E)
    requires Lawful(cmp)
    ensures cmp(a, a) == 0 && (cmp(a, b) < 0 <==> cmp(b, a) > 0) && (cmp(a, b) == 0 <==> cmp(b, a) == 0)
    ensures cmp(a, b) <= 0 && cmp(b, c) <= 0 ==> cmp(a, c) <= 0
    ensures (cmp(a, b) < 0 && cmp(b, c) <= 0) || (cmp(a, b) <= 0 && cmp(b, c) < 0) ==> cmp(a, c) < 0
    ensures cmp(a, b) == 0 ==> (cmp(a, c) < 0 <==> cmp(b, c) < 0) && (cmp(a, c) == 0 <==> cmp(b, c) == 0)
    ensures cmp(a, b) == 0 ==> (cmp(c, a) < 0 <==> cmp(c, b) < 0) && (cmp(c, a) == 0 <==> cmp(c, b) == 0)
  {
  }

  // ----- binary search

  /** Everything before pos is less than arg, everything from pos on is greater. */
  ghost predicate InsertionPos<E>(cmp: Cmp<E>, s: seq<E>, arg: E, pos: nat) {
    && pos <= |s|
    && (forall k :: 0 <= k < pos ==> cmp(arg, s[k]) > 0)
    && (forall k :: pos <= k < |s| ==> cmp(arg, s[k]) < 0)
  }

  lemma Narrow<E(!new)>(cmp: Cmp<E>, s: seq<E>, arg: E, i: nat)
    requires Lawful(cmp) && Sorted(cmp, s) && i < |s|
    ensures cmp(arg, s[i]) < 0 ==> forall k :: i <= k < |s| ==> cmp(arg, s[k]) < 0
    ensures cmp(arg, s[i]) > 0 ==> forall k :: 0 <= k <= i ==> cmp(arg, s[k]) > 0
  {
    hide Lawful;
    forall k | 0 <= k < |s| ensures i <= k && cmp(arg, s[i]) < 0 ==> cmp(arg, s[k]) < 0
                            ensures k <= i && cmp(arg, s[i]) > 0 ==> cmp(arg, s[k]) > 0 {
      Orders(cmp, arg, s[i], s[k]);
      Orders(cmp, s[k], s[i], arg);
      Orders(cmp, arg, s[k], arg);
    }
  }

  /** binary_lookup_insertion_pos: a matching element, or else the position for a new one. */
  method BinaryInsertionPos<E(!new)>(cmp: Cmp<E>, s: seq<E>, arg: E) returns (pos: nat, exact: bool)
    requires Lawful(cmp) && Sorted(cmp, s)
    ensures if exact then pos < |s| && cmp(arg, s[pos]) == 0 else InsertionPos(cmp, s, arg, pos)
  {
    hide Lawful, Sorted;
    var current, elements, offs, c := |s|, |s|, 0, 0;
    while offs < elements
      invariant 0 <= offs <= elements <= |s|
      invariant forall k :: 0 <= k < offs ==> cmp(arg, s[k]) > 0
      invariant forall k :: elements <= k < |s| ==> cmp(arg, s[k]) < 0
      invariant if c > 0 then current + 1 == offs else current == elements
    {
      var i := (offs + elements) / 2;
      current := i;
      c := cmp(arg, s[current]);
      Narrow(cmp, s, arg, i);
      if c == 0 {
        return current, true;
      } else if c < 0 {
        elements := i;
      } else {
        offs := i + 1;
      }
    }
    pos, exact := if c > 0 then current + 1 else current, false;
  }

  /** binary_lookup: a matching element, or else the end of the range searched. */
  method BinaryLookup<E(!new)>(cmp: Cmp<E>, s: seq<E>, arg: E) returns (pos: nat)
    requires Lawful(cmp) && Sorted(cmp, s)
    ensures pos <= |s|
    ensures pos < |s| ==> cmp(arg, s[pos]) == 0
    ensures pos == |s| ==> forall y :: y in s ==> cmp(arg, y) != 0
  {
    var p, exact := BinaryInsertionPos(cmp, s, arg);
    pos := if exact then p else |s|;
  }

  /** lookup_after: the first element that is not less than arg. */
  method LookupAfter<E(!new)>(cmp: Cmp<E>, s: seq<E>, arg: E) returns (pos: nat)
    requires Lawful(cmp) && StrictlySorted(cmp, s)
    ensures pos <= |s|
    ensures forall k :: 0 <= k < pos ==> cmp(s[k], arg) < 0
    ensures forall k :: pos <= k < |s| ==> cmp(s[k], arg) >= 0
  {
    var exact;
    pos, exact := BinaryInsertionPos(cmp, s, arg);
    forall k | 0 <= k < |s| ensures k < pos <==> cmp(s[k], arg) < 0 {
      Orders(cmp, arg, s[k], arg);
      if exact && k < pos {
        Orders(cmp, s[k], s[pos], arg);
      } else if exact && pos < k {
        Orders(cmp, arg, s[pos], s[k]);
      }
      if exact { Orders(cmp, arg, s[pos], arg); }
    }
  }

  // ----- stable sorting

  function Insert<E>(cmp: Cmp<E>, e: E, s: seq<E>): seq<E> {
    if s == [] || cmp(e, s[0]) <= 0 then [e] + s else [s[0]] + Insert(cmp, e, s[1..])
  }

  /** std::stable_sort(). */
  function StableSort<E>(cmp: Cmp<E>, s: seq<E>): seq<E> {
    if s == [] then [] else Insert(cmp, s[0], StableSort(cmp, s[1..]))
  }

  /** The elements of s that compare equal to x, in their order. */
  function Class<E>(cmp: Cmp<E>, s: seq<E>, x: E): seq<E> {
    if s == [] then [] else (if cmp(s[0], x) == 0 then [s[0]] else []) + Class(cmp, s[1..], x)
  }

  /** What a stable sort promises: an ordered list in which equal elements keep their order. */
  ghost predicate StablySorted<E(!new)>(cmp: Cmp<E>, s: seq<E>, t: seq<E>) {
    Sorted(cmp, t) && forall x :: Class(cmp, t, x) == Class(cmp, s, x)
  }

  lemma {:induction false} InsertSorted<E(!new)>(cmp: Cmp<E>, e: E, s: seq<E>)
    requires Lawful(cmp) && Sorted(cmp, s)
    ensures Sorted(cmp, Insert(cmp, e, s))
    ensures forall y :: y in Insert(cmp, e, s) ==> y == e || y in s
  {
    hide Lawful;
    if s == [] {
    } else if cmp(e, s[0]) <= 0 {
      forall k | 0 <= k < |s| ensures cmp(e, s[k]) <= 0 { Orders(cmp, e, s[0], s[k]); }
    } else {
      InsertSorted(cmp, e, s[1..]);
      Orders(cmp, e, s[0], s[0]);
      SortedCons(cmp, s[0], Insert(cmp, e, s[1..]));
    }
  }

  lemma SortedCons<E>(cmp: Cmp<E>, x: E, s: seq<E>)
    requires Sorted(cmp, s) && forall y :: y in s ==> cmp(x, y) <= 0
    ensures Sorted(cmp, [x] + s)
  {
  }

  lemma {:induction false} InsertClass<E(!new)>(cmp: Cmp<E>, e: E, s: seq<E>, x: E)
    requires Lawful(cmp) && Sorted(cmp, s)
    ensures Class(cmp, Insert(cmp, e, s), x) == (if cmp(e, x) == 0 then [e] else []) + Class(cmp, s, x)
  {
    hide Lawful;
    if s == [] || cmp(e, s[0]) <= 0 {
      assert ([e] + s)[1..] == s;
    } else {
      InsertClass(cmp, e, s[1..], x);
      assert ([s[0]] + Insert(cmp, e, s[1..]))[1..] == Insert(cmp, e, s[1..]);
      Orders(cmp, s[0], e, x);
      Orders(cmp, e, x, s[0]);
    }
  }

  lemma {:induction false} StableSortSorts<E(!new)>(cmp: Cmp<E>, s: seq<E>)
    requires Lawful(cmp)
    ensures StablySorted(cmp, s, StableSort(cmp, s))
  {
    hide Lawful;
    if s != [] {
      StableSortSorts(cmp, s[1..]);
      var t := StableSort(cmp, s[1..]);
      InsertSorted(cmp, s[0], t);
      forall x ensures Class(cmp, StableSort(cmp, s), x) == Class(cmp, s, x) {
        InsertClass(cmp, s[0], t, x);
      }
    }
  }

  lemma {:induction false} ClassMembers<E(!new)>(cmp: Cmp<E>, s: seq<E>, x: E, y: E)
    ensures y in Class(cmp, s, x) <==> y in s && cmp(y, x) == 0
  {
    if s != [] {
      ClassMembers(cmp, s[1..], x, y);
    }
  }

  /** Stably sorted lists of the same elements start with the same element. */
  lemma SameFirst<E(!new)>(cmp: Cmp<E>, t: seq<E>, u: seq<E>)
    requires Lawful(cmp) && Sorted(cmp, t) && Sorted(cmp, u) && t != []
    requires forall x :: Class(cmp, t, x) == Class(cmp, u, x)
    ensures u != [] && t[0] == u[0]
  {
    hide Lawful;
    var x := t[0];
    Orders(cmp, x, x, x);
    ClassMembers(cmp, t, x, x);
    ClassMembers(cmp, u, x, x);
    var y := u[0];
    Orders(cmp, y, y, x);
    ClassMembers(cmp, u, y, y);
    ClassMembers(cmp, t, y, y);
    NotBefore(cmp, t, y);
    NotBefore(cmp, u, x);
    Orders(cmp, x, y, x);
    assert Class(cmp, t, x)[0] == x && Class(cmp, u, x)[0] == y;
  }

  lemma NotBefore<E(!new)>(cmp: Cmp<E>, t: seq<E>, y: E)
    requires Lawful(cmp) && Sorted(cmp, t) && y in t
    ensures cmp(t[0], y) <= 0
  {
    Orders(cmp, y, y, y);
  }

  /** There is only one stably sorted list. */
  lemma {:induction false} StablyUnique<E(!new)>(cmp: Cmp<E>, t: seq<E>, u: seq<E>)
    requires Lawful(cmp) && Sorted(cmp, t) && Sorted(cmp, u)
    requires forall x :: Class(cmp, t, x) == Class(cmp, u, x)
    ensures t == u
  {
    hide Lawful;
    if t == [] {
      if u != [] { SameFirst(cmp, u, t); }
    } else {
      SameFirst(cmp, t, u);
      forall x ensures Class(cmp, t[1..], x) == Class(cmp, u[1..], x) {
        assert Class(cmp, t, x) == Class(cmp, u, x);
        assert (if cmp(t[0], x) == 0 then Class(cmp, t, x)[1..] else Class(cmp, t, x)) == Class(cmp, t[1..], x);
        assert (if cmp(u[0], x) == 0 then Class(cmp, u, x)[1..] else Class(cmp, u, x)) == Class(cmp, u[1..], x);
      }
      StablyUnique(cmp, t[1..], u[1..]);
    }
  }
}
