/** The array of unique events of eventlist.hh with its cached, re-sorted copy, and the undo of clip.cc on it. */
module EventLists {
  import opened Basics
  import opened SortedLists

  /** The finite map an event array stands for: the event with the key of k. */
  function Find<E>(cmp: Cmp<E>, s: seq<E>, k: E): Option<E> {
    if s == [] then None else if cmp(k, s[0]) == 0 then Some(s[0]) else Find(cmp, s[1..], k)
  }

  /** The array after e was put at its place, in place of an event with its key. */
  function Put<E>(cmp: Cmp<E>, s: seq<E>, e: E): seq<E> {
    if s == [] || cmp(e, s[0]) < 0 then [e] + s
    else if cmp(e, s[0]) == 0 then [e] + s[1..]
    else [s[0]] + Put(cmp, s[1..], e)
  }

  /** The array without an event with the key of e. */
  function Drop<E>(cmp: Cmp<E>, s: seq<E>, e: E): seq<E> {
    if s == [] then [] else if cmp(e, s[0]) == 0 then s[1..] else [s[0]] + Drop(cmp, s[1..], e)
  }

  lemma Tail<E>(cmp: Cmp<E>, s: seq<E>)
    requires StrictlySorted(cmp, s) && s != []
    ensures StrictlySorted(cmp, s[1..]) && forall y :: y in s[1..] ==> cmp(s[0], y) < 0
  {
  }

  lemma StrictCons<E>(cmp: Cmp<E>, x: E, s: seq<E>)
    requires StrictlySorted(cmp, s) && forall y :: y in s ==> cmp(x, y) < 0
    ensures StrictlySorted(cmp, [x] + s)
  {
  }

  /** Putting an event keeps the array sorted and unique. */
  lemma {:induction false} PutSorted<E(!new)>(cmp: Cmp<E>, s: seq<E>, e: E)
    requires Lawful(cmp) && StrictlySorted(cmp, s)
    ensures StrictlySorted(cmp, Put(cmp, s, e))
    ensures forall y :: y in Put(cmp, s, e) ==> y == e || y in s
  {
    hide Lawful, StrictlySorted;
    if s == [] {
      StrictSingle(cmp, e);
      assert Put(cmp, s, e) == [e];
    } else {
      Tail(cmp, s);
      Orders(cmp, s[0], e, s[0]);
      if cmp(e, s[0]) <= 0 {
        forall y | y in s[1..] ensures cmp(e, y) < 0 { Orders(cmp, e, s[0], y); }
        StrictCons(cmp, e, if cmp(e, s[0]) < 0 then s else s[1..]);
      } else {
        PutSorted(cmp, s[1..], e);
        StrictCons(cmp, s[0], Put(cmp, s[1..], e));
      }
    }
  }

  lemma StrictSingle<E>(cmp: Cmp<E>, e: E)
    ensures StrictlySorted(cmp, [e])
  {
  }

  lemma {:induction false} FindNone<E(!new)>(cmp: Cmp<E>, s: seq<E>, k: E)
    ensures Find(cmp, s, k) == None <==> forall y :: y in s ==> cmp(k, y) != 0
  {
    if s != [] {
      FindNone(cmp, s[1..], k);
      assert forall y :: y in s <==> y == s[0] || y in s[1..];
    }
  }

  lemma FindBelow<E(!new)>(cmp: Cmp<E>, x: E, s: seq<E>, k: E)
    requires Lawful(cmp) && cmp(k, x) == 0 && forall y :: y in s ==> cmp(x, y) < 0
    ensures Find(cmp, s, k) == None
  {
    hide Lawful;
    forall y | y in s ensures cmp(k, y) != 0 { Orders(cmp, k, x, y); }
    FindNone(cmp, s, k);
  }

  /** Putting an event updates the map at its key and nowhere else. */
  lemma {:induction false} PutFind<E(!new)>(cmp: Cmp<E>, s: seq<E>, e: E, k: E)
    requires Lawful(cmp) && StrictlySorted(cmp, s)
    ensures Find(cmp, Put(cmp, s, e), k) == if cmp(k, e) == 0 then Some(e) else Find(cmp, s, k)
  {
    hide Lawful, StrictlySorted;
    if s == [] {
      assert ([e] + s)[1..] == s;
    } else {
      Tail(cmp, s);
      Orders(cmp, k, e, s[0]);
      Orders(cmp, k, s[0], e);
      Orders(cmp, e, s[0], e);
      if cmp(e, s[0]) < 0 {
        assert ([e] + s)[1..] == s;
      } else if cmp(e, s[0]) == 0 {
        assert ([e] + s[1..])[1..] == s[1..];
      } else {
        PutFind(cmp, s[1..], e, k);
        assert ([s[0]] + Put(cmp, s[1..], e))[1..] == Put(cmp, s[1..], e);
      }
    }
  }

  /** What remove() leaves and reports. For an absent event before the last one it takes the last event: the lookup
      leaves the last element out, and its "not found" position is that element's. */
  function Removed<E>(cmp: Cmp<E>, s: seq<E>, e: E): (Option<E>, seq<E>) {
    if Find(cmp, s, e).Some? then (Find(cmp, s, e), Drop(cmp, s, e))
    else if s == [] || cmp(e, Last(s)) > 0 then (None, s)
    else (Some(Last(s)), s[..|s| - 1])
  }

  lemma {:induction false} DropSorted<E(!new)>(cmp: Cmp<E>, s: seq<E>, e: E)
    requires StrictlySorted(cmp, s)
    ensures StrictlySorted(cmp, Drop(cmp, s, e)) && forall y :: y in Drop(cmp, s, e) ==> y in s
  {
    hide StrictlySorted;
    if s != [] {
      Tail(cmp, s);
      if cmp(e, s[0]) != 0 {
        DropSorted(cmp, s[1..], e);
        StrictCons(cmp, s[0], Drop(cmp, s[1..], e));
      }
    }
  }

  /** Dropping an event removes its key from the map and nothing else. */
  lemma {:induction false} DropFind<E(!new)>(cmp: Cmp<E>, s: seq<E>, e: E, k: E)
    requires Lawful(cmp) && StrictlySorted(cmp, s)
    ensures Find(cmp, Drop(cmp, s, e), k) == if cmp(k, e) == 0 then None else Find(cmp, s, k)
  {
    hide Lawful, StrictlySorted;
    if s != [] {
      Tail(cmp, s);
      Orders(cmp, k, e, s[0]);
      Orders(cmp, k, s[0], e);
      Orders(cmp, e, s[0], e);
      if cmp(e, s[0]) == 0 {
        if cmp(k, e) == 0 { FindBelow(cmp, s[0], s[1..], k); }
      } else {
        DropFind(cmp, s[1..], e, k);
        assert ([s[0]] + Drop(cmp, s[1..], e))[1..] == Drop(cmp, s[1..], e);
      }
    }
  }

  /** Two arrays that stand for the same map are equal. */
  lemma {:induction false} MapDetermines<E(!new)>(cmp: Cmp<E>, s: seq<E>, t: seq<E>)
    requires Lawful(cmp) && StrictlySorted(cmp, s) && StrictlySorted(cmp, t)
    requires forall k :: Find(cmp, s, k) == Find(cmp, t, k)
    ensures s == t
  {
    hide Lawful, StrictlySorted;
    if s == [] || t == [] {
      if s != [] { FindFirst(cmp, s); }
      if t != [] { FindFirst(cmp, t); }
    } else {
      SameHead(cmp, s, t);
      Tail(cmp, s);
      Tail(cmp, t);
      forall k ensures Find(cmp, s[1..], k) == Find(cmp, t[1..], k) {
        assert Find(cmp, s, k) == Find(cmp, t, k);
        if cmp(k, s[0]) == 0 {
          FindBelow(cmp, s[0], s[1..], k);
          FindBelow(cmp, t[0], t[1..], k);
        }
      }
      MapDetermines(cmp, s[1..], t[1..]);
    }
  }

  lemma FindFirst<E(!new)>(cmp: Cmp<E>, s: seq<E>)
    requires Lawful(cmp) && s != []
    ensures Find(cmp, s, s[0]) == Some(s[0])
  {
    Orders(cmp, s[0], s[0], s[0]);
  }

  lemma {:induction false} FindMember<E(!new)>(cmp: Cmp<E>, s: seq<E>, k: E)
    ensures Find(cmp, s, k).Some? ==> Find(cmp, s, k).value in s && cmp(k, Find(cmp, s, k).value) == 0
  {
    if s != [] && cmp(k, s[0]) != 0 {
      FindMember(cmp, s[1..], k);
    }
  }

  lemma SameHead<E(!new)>(cmp: Cmp<E>, s: seq<E>, t: seq<E>)
    requires Lawful(cmp) && StrictlySorted(cmp, s) && StrictlySorted(cmp, t) && s != [] && t != []
    requires forall k :: Find(cmp, s, k) == Find(cmp, t, k)
    ensures s[0] == t[0]
  {
    hide Lawful, StrictlySorted;
    Tail(cmp, s);
    Tail(cmp, t);
    FindFirst(cmp, s);
    FindFirst(cmp, t);
    FindMember(cmp, t, s[0]);
    FindMember(cmp, s, t[0]);
    Orders(cmp, s[0], t[0], s[0]);
  }

  // ----- positions

  lemma {:induction false} PutAt<E(!new)>(cmp: Cmp<E>, s: seq<E>, e: E, pos: nat)
    requires InsertionPos(cmp, s, e, pos)
    ensures Put(cmp, s, e) == s[..pos] + [e] + s[pos..] && Find(cmp, s, e) == None
  {
    if pos == 0 {
      FindNone(cmp, s, e);
    } else {
      PutAt(cmp, s[1..], e, pos - 1);
      assert s[..pos] == [s[0]] + s[1..][..pos - 1] && s[1..][pos - 1..] == s[pos..];
    }
  }

  lemma PutOver<E(!new)>(cmp: Cmp<E>, s: seq<E>, e: E, pos: nat)
    requires Lawful(cmp) && StrictlySorted(cmp, s) && pos < |s| && cmp(e, s[pos]) == 0
    ensures Put(cmp, s, e) == s[pos := e] && Find(cmp, s, e) == Some(s[pos])
    ensures Drop(cmp, s, e) == s[..pos] + s[pos + 1..]
  {
    hide Lawful, StrictlySorted, Put, Find, Drop;
    forall k | 0 <= k < pos ensures cmp(e, s[k]) > 0 {
      Before(cmp, s, e, pos, k);
    }
    PutOverFirst(cmp, s, e, pos);
    FindOverFirst(cmp, s, e, pos);
    DropOverFirst(cmp, s, e, pos);
  }

  lemma Before<E(!new)>(cmp: Cmp<E>, s: seq<E>, e: E, pos: nat, k: nat)
    requires Lawful(cmp) && StrictlySorted(cmp, s) && k < pos < |s| && cmp(e, s[pos]) == 0
    ensures cmp(e, s[k]) > 0
  {
    hide Lawful;
    Orders(cmp, s[k], s[pos], e);
    Orders(cmp, e, s[pos], s[k]);
    Orders(cmp, s[k], e, s[k]);
  }

  lemma {:induction false} PutOverFirst<E>(cmp: Cmp<E>, s: seq<E>, e: E, pos: nat)
    requires pos < |s| && cmp(e, s[pos]) == 0 && forall k :: 0 <= k < pos ==> cmp(e, s[k]) > 0
    ensures Put(cmp, s, e) == s[pos := e]
  {
    if pos > 0 {
      PutOverFirst(cmp, s[1..], e, pos - 1);
      assert s[pos := e] == [s[0]] + s[1..][pos - 1 := e];
    } else {
      assert s[pos := e] == [e] + s[1..];
    }
  }

  lemma {:induction false} FindOverFirst<E>(cmp: Cmp<E>, s: seq<E>, e: E, pos: nat)
    requires pos < |s| && cmp(e, s[pos]) == 0 && forall k :: 0 <= k < pos ==> cmp(e, s[k]) > 0
    ensures Find(cmp, s, e) == Some(s[pos])
  {
    if pos > 0 {
      FindOverFirst(cmp, s[1..], e, pos - 1);
    }
  }

  lemma {:induction false} DropOverFirst<E>(cmp: Cmp<E>, s: seq<E>, e: E, pos: nat)
    requires pos < |s| && cmp(e, s[pos]) == 0 && forall k :: 0 <= k < pos ==> cmp(e, s[k]) > 0
    ensures Drop(cmp, s, e) == s[..pos] + s[pos + 1..]
  {
    if pos > 0 {
      DropOverFirst(cmp, s[1..], e, pos - 1);
      assert s[..pos] == [s[0]] + s[1..][..pos - 1] && s[1..][pos..] == s[pos + 1..];
    }
  }

  lemma AfterLast<E(!new)>(cmp: Cmp<E>, s: seq<E>, e: E)
    requires Lawful(cmp) && StrictlySorted(cmp, s) && (s == [] || cmp(e, s[|s| - 1]) > 0)
    ensures InsertionPos(cmp, s, e, |s|)
  {
    if s != [] {
      Narrow(cmp, s, e, |s| - 1);
    }
  }

  lemma StrictIsSorted<E(!new)>(cmp: Cmp<E>, s: seq<E>)
    requires StrictlySorted(cmp, s)
    ensures Sorted(cmp, s)
  {
  }

  lemma StrictPrefix<E(!new)>(cmp: Cmp<E>, s: seq<E>, n: nat)
    requires StrictlySorted(cmp, s) && n <= |s|
    ensures StrictlySorted(cmp, s[..n])
    ensures n < |s| ==> n == 0 || cmp(s[n - 1], s[n]) < 0
  {
  }

  class EventList<E(!new)> {
    const cmp: Cmp<E>
    const order: Cmp<E>
    var events: seq<E>
    /** ordered_: the copy of the events sorted by `order`, once it was asked for. */
    var ordered: Option<seq<E>>

    ghost predicate Valid()
      reads this
    {
      && Lawful(cmp) && Lawful(order)
      && StrictlySorted(cmp, events)
      && (ordered.Some? ==> ordered.value == StableSort(order, events))
    }

    constructor (compare: Cmp<E>, compareOrder: Cmp<E>)
      requires Lawful(compare) && Lawful(compareOrder)
      ensures Valid() && events == [] && cmp == compare && order == compareOrder
    {
      cmp, order := compare, compareOrder;
      events, ordered := [], None;
    }

    method ClearSilently()
      requires Valid()
      modifies this
      ensures Valid() && events == []
    {
      events, ordered := [], None;
    }

    /** Insert or replace; `mod` is what the change notification says. */
    method Insert(event: E) returns (existed: bool, replaced: Option<E>, mod: int)
      requires Valid()
      modifies this
      ensures Valid() && events == Put(cmp, old(events), event)
      ensures replaced == Find(cmp, old(events), event) && existed == replaced.Some?
      ensures mod == if existed then 0 else 1
    {
      hide Lawful, StrictlySorted;
      ordered := None;
      PutSorted(cmp, events, event);
      StrictIsSorted(cmp, events);
      if |events| > 0 && cmp(event, events[|events| - 1]) > 0 {
        AfterLast(cmp, events, event);
        PutAt(cmp, events, event, |events|);
        assert events[..|events|] + [event] + events[|events|..] == events + [event];
        events := events + [event];
        return false, None, 1;
      }
      var pos, exact := BinaryInsertionPos(cmp, events, event);
      if exact {
        PutOver(cmp, events, event, pos);
        replaced := Some(events[pos]);
        events := events[pos := event];
        return true, replaced, 0;
      } else {
        PutAt(cmp, events, event, pos);
        events := events[..pos] + [event] + events[pos..];
        return false, None, 1;
      }
    }

    /** Only replace; keeps the sorted copy when there is nothing to replace. */
    method Replace(event: E) returns (existed: bool, replaced: Option<E>)
      requires Valid()
      modifies this
      ensures Valid() && replaced == Find(cmp, old(events), event) && existed == replaced.Some?
      ensures if existed then events == Put(cmp, old(events), event)
              else events == old(events) && ordered == old(ordered)
    {
      hide Lawful, StrictlySorted;
      StrictIsSorted(cmp, events);
      var pos, exact := BinaryInsertionPos(cmp, events, event);
      if exact {
        PutSorted(cmp, events, event);
        PutOver(cmp, events, event, pos);
        ordered := None;
        replaced := Some(events[pos]);
        events := events[pos := event];
        return true, replaced;
      }
      PutAt(cmp, events, event, pos);
      return false, None;
    }

    method Remove(event: E) returns (removed: Option<E>)
      requires Valid()
      modifies this
      ensures Valid() && (removed, events) == Removed(cmp, old(events), event)
    {
      hide Lawful, StrictlySorted;
      ordered := None;
      var c := if |events| == 0 then 1 else cmp(event, events[|events| - 1]);
      if c == 0 {
        RemovedAt(cmp, events, event, |events| - 1);
        assert events[..|events| - 1] + events[|events|..] == events[..|events| - 1];
        removed := Some(events[|events| - 1]);
        events := events[..|events| - 1];
      } else {
        if c < 0 {
          StrictPrefix(cmp, events, |events| - 1);
          StrictIsSorted(cmp, events[..|events| - 1]);
          var pos := BinaryLookup(cmp, events[..|events| - 1], event);
          if pos < |events| {
            RemovedAt(cmp, events, event, pos);
            removed := Some(events[pos]);
            events := events[..pos] + events[pos + 1..];
            return;
          }
        }
        AfterLast(cmp, events, event);
        PutAt(cmp, events, event, |events|);
        removed := None;
      }
    }

    method OrderedEvents() returns (list: seq<E>)
      requires Valid()
      modifies this`ordered
      ensures Valid() && list == StableSort(order, events) && StablySorted(order, events, list)
    {
      if ordered == None {
        ordered := Some(StableSort(order, events));
      }
      StableSortSorts(order, events);
      list := ordered.value;
    }

    /** apply_undo: restores the events of an image and returns the image that undoes this. */
    method ApplyUndo(image: seq<E>) returns (undo: seq<E>)
      requires Valid() && StrictlySorted(cmp, image)
      modifies this
      ensures Valid() && events == image && undo == old(events) && StrictlySorted(cmp, undo)
    {
      hide Lawful, StrictlySorted;
      undo := events;
      ClearSilently();
      for i := 0 to |image|
        invariant Valid() && events == image[..i]
      {
        StrictPrefix(cmp, image, i);
        if i > 0 { Orders(cmp, image[i - 1], image[i], image[i]); }
        AfterLast(cmp, image[..i], image[i]);
        PutAt(cmp, image[..i], image[i], i);
        assert image[..i] + [image[i]] + image[..i][i..] == image[..i + 1];
        var existed, replaced, mod := Insert(image[i]);
      }
      assert image[..|image|] == image;
    }
  }

  lemma RemovedAt<E(!new)>(cmp: Cmp<E>, s: seq<E>, e: E, pos: nat)
    requires Lawful(cmp) && StrictlySorted(cmp, s) && pos < |s| && cmp(e, Last(s)) <= 0
    requires pos < |s| - 1 ==> cmp(e, s[pos]) == 0
    requires pos == |s| - 1 && cmp(e, s[pos]) != 0 ==> forall y :: y in s[..pos] ==> cmp(e, y) != 0
    ensures Removed(cmp, s, e) == (Some(s[pos]), s[..pos] + s[pos + 1..])
    ensures StrictlySorted(cmp, s[..pos] + s[pos + 1..])
  {
    hide Lawful, StrictlySorted;
    if cmp(e, s[pos]) == 0 {
      PutOver(cmp, s, e, pos);
      DropSorted(cmp, s, e);
    } else {
      NoneBefore(cmp, s, e);
      StrictPrefix(cmp, s, pos);
      assert s[..pos] + s[pos + 1..] == s[..pos];
    }
  }

  lemma NoneBefore<E(!new)>(cmp: Cmp<E>, s: seq<E>, e: E)
    requires s != [] && cmp(e, s[|s| - 1]) != 0
    requires forall y :: y in s[..|s| - 1] ==> cmp(e, y) != 0
    ensures Find(cmp, s, e) == None
  {
    FindNone(cmp, s, e);
    assert forall y :: y in s <==> y in s[..|s| - 1] || y == s[|s| - 1];
  }

  /** remove() does what it promises, remove the event with this key if there is one and report it, exactly when
      the event is present or lies beyond the last one. */
  lemma RemoveExact<E(!new)>(cmp: Cmp<E>, s: seq<E>, e: E)
    requires Lawful(cmp) && StrictlySorted(cmp, s)
    ensures Removed(cmp, s, e) == (Find(cmp, s, e), Drop(cmp, s, e)) <==>
            Find(cmp, s, e).Some? || s == [] || cmp(e, Last(s)) > 0
  {
    if Find(cmp, s, e) == None {
      DropAbsent(cmp, s, e);
    }
  }

  lemma {:induction false} DropAbsent<E(!new)>(cmp: Cmp<E>, s: seq<E>, e: E)
    requires Find(cmp, s, e) == None
    ensures Drop(cmp, s, e) == s
  {
    if s != [] {
      DropAbsent(cmp, s[1..], e);
    }
  }
}
