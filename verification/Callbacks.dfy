/** CallbackList: callbacks may call, extend and shrink the list they are called from. */
module Callbacks {
  import opened Basics

  /** What callbacks do when they are called: add a callback, delete one, or call the list. The i-th callback a
      call invokes performs bodies[i], or nothing when there is no such body. */
  datatype Action = Add | Del(id: nat) | Call(bodies: seq<Body>)

  datatype Body = Body(actions: seq<Action>)

  /** The variable `next` of an activation of call(). */
  class Cursor {
    var next: nat
    /** The id of the callback invoked last, or 0. */
    ghost var mark: nat

    constructor ()
      ensures next == 0 && mark == 0
    {
      next, mark := 0, 0;
    }
  }

  /** Entries are kept in the order of their ids. */
  ghost predicate Ascending(ids: seq<nat>) {
    forall i, j :: 0 <= i < j < |ids| ==> ids[i] < ids[j]
  }

  /** The cursor stands behind the ids up to mark and before the ones above. */
  ghost predicate Between(ids: seq<nat>, next: nat, mark: nat) {
    && next <= |ids|
    && (forall k :: 0 <= k < next ==> ids[k] <= mark)
    && (forall k :: next <= k < |ids| ==> mark < ids[k])
  }

  function Erased(ids: seq<nat>, j: nat): seq<nat>
    requires j < |ids|
  {
    ids[..j] + ids[j + 1..]
  }

  lemma AppendAscending(ids: seq<nat>, x: nat)
    requires Ascending(ids) && forall y :: y in ids ==> y < x
    ensures Ascending(ids + [x])
    ensures forall y :: y in ids + [x] <==> y in ids || y == x
  {
    forall i | 0 <= i < |ids| ensures ids[i] < x {
      assert ids[i] in ids;
    }
  }

  lemma BehindNone(ids: seq<nat>)
    requires forall x :: x in ids ==> 0 < x
    ensures Between(ids, 0, 0)
  {
    forall k | 0 <= k < |ids| ensures 0 < ids[k] {
      assert ids[k] in ids;
    }
  }

  lemma ErasedAscending(ids: seq<nat>, j: nat)
    requires Ascending(ids) && j < |ids|
    ensures Ascending(Erased(ids, j))
    ensures forall x :: x in Erased(ids, j) <==> x in ids && x != ids[j]
  {
    var es := Erased(ids, j);
    forall x | x in ids && x != ids[j] ensures x in es {
      var k :| 0 <= k < |ids| && ids[k] == x;
      assert es[if k < j then k else k - 1] == x;
    }
  }

  lemma ErasedBetween(ids: seq<nat>, j: nat, next: nat, mark: nat)
    requires Between(ids, next, mark) && j < |ids|
    ensures Between(Erased(ids, j), if j < next then next - 1 else next, mark)
  {
    var es := Erased(ids, j);
    assert forall k :: 0 <= k < |es| ==> es[k] == ids[if k < j then k else k + 1];
  }

  // ----- reference: no cursors, only ids

  /** The list as its callers see it: the ids of the callbacks, and the last id given out. */
  datatype World = World(ids: seq<nat>, counter: nat)

  /** The oldest callback that is newer than mark. */
  function Newer(ids: seq<nat>, mark: nat): Option<nat> {
    if ids == [] then None else if mark < ids[0] then Some(ids[0]) else Newer(ids[1..], mark)
  }

  function CountNewer(ids: seq<nat>, mark: nat): nat {
    if ids == [] then 0 else (if mark < ids[0] then 1 else 0) + CountNewer(ids[1..], mark)
  }

  lemma {:induction false} FewerNewer(ids: seq<nat>, mark: nat)
    ensures Newer(ids, mark).Some? ==>
              mark < Newer(ids, mark).value && CountNewer(ids, Newer(ids, mark).value) < CountNewer(ids, mark)
  {
    if ids != [] {
      FewerNewer(ids[1..], mark);
      if mark < ids[0] { CountMonotone(ids[1..], mark, ids[0]); }
    }
  }

  lemma {:induction false} CountMonotone(ids: seq<nat>, mark: nat, more: nat)
    requires mark <= more
    ensures CountNewer(ids, more) <= CountNewer(ids, mark)
  {
    if ids != [] {
      CountMonotone(ids[1..], mark, more);
    }
  }

  /** What a callback body does to the list. */
  function Performed(w: World, actions: seq<Action>): World
    decreases actions
  {
    if actions == [] then w
    else
      var v := match actions[0]
        case Add => World(w.ids + [w.counter + 1], w.counter + 1)
        case Del(id) => w.(ids := Without(w.ids, id))
        case Call(bodies) => Called(w, 0, bodies, 0).0;
      Performed(v, actions[1..])
  }

  /** A call that has invoked n callbacks, the last one with id mark: it goes on with the oldest newer one, as the
      list is at that time. Result: the list afterwards and the ids still invoked. */
  function Called(w: World, mark: nat, bodies: seq<Body>, n: nat): (World, seq<nat>)
    decreases bodies, Max(|bodies| - n, 0), CountNewer(w.ids, mark)
  {
    FewerNewer(w.ids, mark);
    match Newer(w.ids, mark)
    case None => (w, [])
    case Some(id) =>
      var v := if n < |bodies| then Performed(w, bodies[n].actions) else w;
      var (u, rest) := Called(v, id, bodies, n + 1);
      (u, [id] + rest)
  }

  /** The callback at a cursor is the oldest one newer than the one invoked last. */
  lemma {:induction false} CursorAtNewer(ids: seq<nat>, next: nat, mark: nat)
    requires Ascending(ids) && Between(ids, next, mark)
    ensures Newer(ids, mark) == if next < |ids| then Some(ids[next]) else None
  {
    if ids != [] && next > 0 {
      CursorAtNewer(ids[1..], next - 1, mark);
    }
  }

  /** Erasing at an index removes the id found there. */
  lemma {:induction false} ErasedIsWithout(ids: seq<nat>, j: nat)
    requires j < |ids| && forall k :: 0 <= k < |ids| && k != j ==> ids[k] != ids[j]
    ensures Without(ids, ids[j]) == Erased(ids, j)
  {
    if j == 0 {
      AbsentWithout(ids[1..], ids[0]);
    } else {
      ErasedIsWithout(ids[1..], j - 1);
      assert Erased(ids, j) == [ids[0]] + Erased(ids[1..], j - 1);
    }
  }

  lemma {:induction false} AbsentWithout(ids: seq<nat>, x: nat)
    requires forall k :: 0 <= k < |ids| ==> ids[k] != x
    ensures Without(ids, x) == ids
  {
    if ids != [] {
      AbsentWithout(ids[1..], x);
    }
  }

  class CallbackList {
    var funcs: seq<nat>
    var iters: seq<Cursor>
    /** The last id newid() gave out. */
    var counter: nat
    ghost var deleted: set<nat>

    ghost function Known(): World
      reads `funcs, `counter
    {
      World(funcs, counter)
    }

    /** Every id given out is either in the list, in order, or was deleted; every live cursor stands between the
        callbacks it has invoked and those whose turn is still to come. */
    ghost predicate Valid()
      reads this, iters
    {
      && Ascending(funcs)
      && (forall x :: x in funcs ==> 0 < x <= counter && x !in deleted)
      && (forall x :: 0 < x <= counter ==> x in funcs || x in deleted)
      && (forall x :: x in deleted ==> 0 < x <= counter)
      && (forall i, j :: 0 <= i < j < |iters| ==> iters[i] != iters[j])
      && (forall i :: 0 <= i < |iters| ==> Between(funcs, iters[i].next, iters[i].mark) && iters[i].mark <= counter)
    }

    constructor ()
      ensures Valid() && funcs == [] && iters == [] && deleted == {}
    {
      funcs, iters, counter, deleted := [], [], 0, {};
    }

    /** No cursor is affected by a newer callback at the end. */
    lemma AppendKeepsCursors()
      requires Valid()
      ensures forall i :: 0 <= i < |iters| ==> Between(funcs + [counter + 1], iters[i].next, iters[i].mark)
    {
    }

    method AddId() returns (id: nat)
      requires Valid()
      modifies `funcs, `counter
      ensures Valid() && id == old(counter) + 1 == counter && funcs == old(funcs) + [id]
    {
      hide Between, Ascending;
      AppendAscending(funcs, counter + 1);
      AppendKeepsCursors();
      counter := counter + 1;
      id := counter;
      funcs := funcs + [id];
    }

    /** The cursors behind the deleted callback move down. */
    method Adjust(j: nat, ghost ids: seq<nat>)
      requires j < |ids| && funcs == Erased(ids, j)
      requires forall a, b :: 0 <= a < b < |iters| ==> iters[a] != iters[b]
      requires forall i :: 0 <= i < |iters| ==> Between(ids, iters[i].next, iters[i].mark)
      modifies iters
      ensures forall i :: 0 <= i < |iters| ==> Between(funcs, iters[i].next, iters[i].mark)
      ensures forall i :: 0 <= i < |iters| ==> iters[i].mark == old(iters[i].mark)
    {
      for i := 0 to |iters|
        modifies iters
        invariant forall k :: i <= k < |iters| ==> iters[k].next == old(iters[k].next)
        invariant forall k :: 0 <= k < |iters| ==> iters[k].mark == old(iters[k].mark)
        invariant forall k :: 0 <= k < i ==> Between(funcs, iters[k].next, iters[k].mark)
      {
        ErasedBetween(ids, j, iters[i].next, iters[i].mark);
        if j < iters[i].next {
          iters[i].next := iters[i].next - 1;
        }
      }
    }

    method DelId(id: nat) returns (found: bool)
      requires Valid()
      modifies `funcs, `deleted, iters
      ensures Valid() && found == (id in old(funcs))
      ensures forall x :: x in funcs <==> x in old(funcs) && x != id
      ensures forall c :: c in iters ==> c.mark == old(c.mark)
      ensures deleted == if found then old(deleted) + {id} else old(deleted)
      ensures funcs == Without(old(funcs), id)
    {
      for j := 0 to |funcs|
        invariant forall k :: 0 <= k < j ==> funcs[k] != id
      {
        if funcs[j] == id {
          ErasedAscending(funcs, j);
          ErasedIsWithout(funcs, j);
          ghost var ids := funcs;
          funcs := funcs[..j] + funcs[j + 1..];
          deleted := deleted + {id};
          Adjust(j, ids);
          return true;
        }
      }
      AbsentWithout(funcs, id);
      return false;
    }

    /** Moves a cursor on, before the callback it was at is called. */
    method Next(cursor: Cursor, ghost outer: seq<Cursor>, invoked: seq<nat>, ghost gone: seq<set<nat>>)
      returns (id: nat)
      requires Valid() && iters == outer + [cursor] && cursor.next < |funcs|
      requires cursor.mark == if invoked == [] then 0 else Last(invoked)
      requires Ascending(invoked) && InTurn(invoked, gone, deleted)
      modifies cursor
      ensures Valid() && cursor.mark == id && cursor.next == old(cursor.next) + 1
      ensures id == funcs[old(cursor.next)] && id !in deleted
      ensures Ascending(invoked + [id]) && InTurn(invoked + [id], gone + [deleted], deleted)
      ensures forall c :: c in outer ==> c.mark == old(c.mark)
    {
      hide InTurn, Ascending, Between;
      assert iters[|outer|] == cursor;
      assert forall i :: 0 <= i < |outer| ==> outer[i] == iters[i] != cursor;
      TurnTaken(funcs, cursor.next, invoked, gone, deleted, counter);
      id := funcs[cursor.next];
      assert id in funcs;
      cursor.next := cursor.next + 1;
      cursor.mark := id;
      assert forall i :: 0 <= i < |iters| ==> iters[i] == if i < |outer| then outer[i] else cursor;
    }

    /** Registers a new cursor. */
    method Enter() returns (cursor: Cursor)
      requires Valid()
      modifies `iters
      ensures Valid() && fresh(cursor) && iters == old(iters) + [cursor] && cursor.mark == 0
    {
      hide Ascending, Between;
      cursor := new Cursor();
      BehindNone(funcs);
      iters := iters + [cursor];
    }

    /** Unregisters the cursor again. */
    method Leave(cursor: Cursor, ghost outer: seq<Cursor>)
      requires Valid() && iters == outer + [cursor]
      modifies `iters
      ensures Valid() && iters == outer
    {
      hide Ascending, Between;
      assert iters[|outer|] == cursor;
      assert forall i :: 0 <= i < |outer| ==> outer[i] == iters[i] != cursor;
      WithoutLast(outer, cursor);
      var oldSize := |iters|;
      iters := Without(iters, cursor);
      assert 1 == oldSize - |iters|;
    }

    /** What one callback does. */
    method Run(actions: seq<Action>)
      requires Valid()
      modifies this, iters
      ensures Valid() && iters == old(iters) && old(counter) <= counter && old(deleted) <= deleted
      ensures forall c :: c in iters ==> c.mark == old(c.mark)
      ensures Known() == Performed(old(Known()), actions)
      decreases actions
    {
      hide Ascending, Between, InTurn, Called;
      if actions == [] { return; }
      match actions[0] {
        case Add => var id := AddId();
        case Del(id) => var found := DelId(id);
        case Call(bodies) => var invoked, gone := Invoke(bodies);
      }
      Run(actions[1..]);
    }

    /** call(): invokes callbacks in the order they were added, each at most once; an id is passed over exactly when
        it was deleted before its turn came. `gone` are the deleted ids at the time of each invocation. */
    method Invoke(bodies: seq<Body>) returns (invoked: seq<nat>, ghost gone: seq<set<nat>>)
      requires Valid()
      modifies this, iters
      ensures Valid() && iters == old(iters) && old(counter) <= counter && old(deleted) <= deleted
      ensures forall c :: c in iters ==> c.mark == old(c.mark)
      ensures (Known(), invoked) == Called(old(Known()), 0, bodies, 0)
      ensures Ascending(invoked) && InTurn(invoked, gone, deleted)
      ensures forall x :: 0 < x <= counter && x !in invoked ==> x in deleted
      ensures forall x :: x in funcs ==> x in invoked
      decreases bodies
    {
      hide InTurn, Ascending, Between, Called, Performed;
      ghost var outer := iters;
      var cursor := Enter();
      ghost var all := Called(Known(), 0, bodies, 0);
      Starts(Known(), bodies);
      NoTurns(deleted);
      invoked, gone := [], [];
      while cursor.next < |funcs|
        invariant Valid() && iters == outer + [cursor] && old(counter) <= counter && old(deleted) <= deleted
        invariant forall c :: c in outer ==> c.mark == old(c.mark)
        invariant cursor.mark == if invoked == [] then 0 else Last(invoked)
        invariant Ascending(invoked) && InTurn(invoked, gone, deleted)
        invariant StillToCome(all, Known(), cursor.mark, bodies, invoked)
        decreases Max(|bodies| - |invoked|, 0), |funcs| - cursor.next
      {
        ghost var before := deleted;
        assert iters[|outer|] == cursor;
        GoesOn(all, Known(), cursor.next, cursor.mark, bodies, invoked);
        var id := Next(cursor, outer, invoked, gone);
        invoked, gone := invoked + [id], gone + [before];
        if |invoked| <= |bodies| {
          Run(bodies[|invoked| - 1].actions);
          DeletedGrows(invoked, gone, before, deleted);
        }
      }
      assert iters[|outer|] == cursor;
      AllPassed(funcs, cursor.next, invoked, gone, deleted, counter);
      Ends(all, Known(), cursor.next, cursor.mark, bodies, invoked);
      Leave(cursor, outer);
    }
  }

  /** What was invoked so far, followed by the rest of the reference call, is the whole reference call. */
  ghost predicate StillToCome(all: (World, seq<nat>), w: World, mark: nat, bodies: seq<Body>, invoked: seq<nat>) {
    var (u, rest) := Called(w, mark, bodies, |invoked|);
    all == (u, invoked + rest)
  }

  lemma Starts(w: World, bodies: seq<Body>)
    ensures StillToCome(Called(w, 0, bodies, 0), w, 0, bodies, [])
  {
    hide Called;
    var rest := Called(w, 0, bodies, 0).1;
    assert [] + rest == rest;
  }

  lemma GoesOn(all: (World, seq<nat>), w: World, next: nat, mark: nat, bodies: seq<Body>, invoked: seq<nat>)
    requires Ascending(w.ids) && Between(w.ids, next, mark) && next < |w.ids|
    requires StillToCome(all, w, mark, bodies, invoked)
    ensures var v := if |invoked| < |bodies| then Performed(w, bodies[|invoked|].actions) else w;
            StillToCome(all, v, w.ids[next], bodies, invoked + [w.ids[next]])
  {
    hide Performed;
    CursorAtNewer(w.ids, next, mark);
    var v := if |invoked| < |bodies| then Performed(w, bodies[|invoked|].actions) else w;
    var (u, rest) := Called(v, w.ids[next], bodies, |invoked| + 1);
    assert Called(w, mark, bodies, |invoked|) == (u, [w.ids[next]] + rest);
    assert invoked + ([w.ids[next]] + rest) == (invoked + [w.ids[next]]) + rest;
  }

  lemma Ends(all: (World, seq<nat>), w: World, next: nat, mark: nat, bodies: seq<Body>, invoked: seq<nat>)
    requires Ascending(w.ids) && Between(w.ids, next, mark) && |w.ids| <= next
    requires StillToCome(all, w, mark, bodies, invoked)
    ensures all == (w, invoked)
  {
    CursorAtNewer(w.ids, next, mark);
    assert invoked + [] == invoked;
  }

  /** Each invoked id was not deleted at its turn, and each smaller id that was not invoked was. */
  ghost predicate InTurn(invoked: seq<nat>, gone: seq<set<nat>>, deleted: set<nat>) {
    && |gone| == |invoked|
    && forall i :: 0 <= i < |invoked| ==>
         && invoked[i] !in gone[i] && gone[i] <= deleted
         && forall x :: 0 < x < invoked[i] && x !in invoked ==> x in gone[i]
  }

  lemma NoTurns(deleted: set<nat>)
    ensures Ascending([]) && InTurn([], [], deleted)
  {
  }

  function Without<T(==)>(s: seq<T>, x: T): seq<T> {
    if s == [] then [] else (if s[0] == x then [] else [s[0]]) + Without(s[1..], x)
  }

  lemma {:induction false} WithoutLast<T>(s: seq<T>, x: T)
    requires x !in s
    ensures Without(s + [x], x) == s
  {
    if s == [] {
      assert [x][1..] == [];
    } else {
      WithoutLast(s[1..], x);
      assert (s + [x])[1..] == s[1..] + [x];
    }
  }

  /** A call that has no callback left to invoke has invoked all that are still in the list. */
  lemma AllPassed(funcs: seq<nat>, next: nat, invoked: seq<nat>, gone: seq<set<nat>>, deleted: set<nat>, counter: nat)
    requires Between(funcs, next, if invoked == [] then 0 else Last(invoked)) && |funcs| <= next
    requires InTurn(invoked, gone, deleted)
    requires forall x :: 0 < x <= counter ==> x in funcs || x in deleted
    requires forall x :: x in funcs ==> 0 < x <= counter && x !in deleted
    ensures forall x :: 0 < x <= counter && x !in invoked ==> x in deleted
    ensures forall x :: x in funcs ==> x in invoked
  {
    forall x | 0 < x <= counter && x !in deleted ensures x in invoked {
      assert x in funcs;
      assert invoked != [] && x <= Last(invoked);
      LastTurn(invoked, gone, deleted, x);
    }
  }

  lemma LastTurn(invoked: seq<nat>, gone: seq<set<nat>>, deleted: set<nat>, x: nat)
    requires InTurn(invoked, gone, deleted) && invoked != [] && 0 < x <= Last(invoked)
    ensures x in invoked || x in deleted
  {
    if x < Last(invoked) && x !in invoked { assert x in gone[|gone| - 1]; }
  }

  /** The next callback in the list is the one whose turn it is. */
  lemma TurnTaken(funcs: seq<nat>, next: nat, invoked: seq<nat>, gone: seq<set<nat>>, deleted: set<nat>, counter: nat)
    requires Between(funcs, next, if invoked == [] then 0 else Last(invoked)) && next < |funcs|
    requires Ascending(funcs) && Ascending(invoked) && InTurn(invoked, gone, deleted)
    requires forall x :: 0 < x <= counter ==> x in funcs || x in deleted
    requires forall x :: x in funcs ==> 0 < x <= counter && x !in deleted
    ensures Ascending(invoked + [funcs[next]])
    ensures InTurn(invoked + [funcs[next]], gone + [deleted], deleted)
    ensures Between(funcs, next + 1, funcs[next])
  {
    var id := funcs[next];
    assert id in funcs;
    NoneBetween(funcs, next, if invoked == [] then 0 else Last(invoked));
    forall x | 0 < x < id && x !in invoked ensures x in deleted {
      if invoked != [] && x <= Last(invoked) { LastTurn(invoked, gone, deleted, x); }
    }
    LaterTurns(invoked, gone, id, deleted);
  }

  lemma NoneBetween(funcs: seq<nat>, next: nat, mark: nat)
    requires Ascending(funcs) && Between(funcs, next, mark) && next < |funcs|
    ensures forall x :: x in funcs ==> x <= mark || funcs[next] <= x
  {
    forall x | x in funcs ensures x <= mark || funcs[next] <= x {
      var k :| 0 <= k < |funcs| && funcs[k] == x;
    }
  }

  lemma LaterTurns(invoked: seq<nat>, gone: seq<set<nat>>, id: nat, deleted: set<nat>)
    requires InTurn(invoked, gone, deleted) && id !in deleted && (invoked == [] || Last(invoked) < id)
    requires Ascending(invoked)
    requires forall x :: 0 < x < id && x !in invoked ==> x in deleted
    ensures InTurn(invoked + [id], gone + [deleted], deleted)
    ensures Ascending(invoked + [id])
  {
    var all, gs := invoked + [id], gone + [deleted];
    forall i, x | 0 <= i < |all| && 0 < x < all[i] && x !in all ensures x in gs[i] {
      assert x !in invoked;
    }
    assert forall i :: 0 <= i < |invoked| ==> invoked[i] <= Last(invoked);
  }

  lemma DeletedGrows(invoked: seq<nat>, gone: seq<set<nat>>, deleted: set<nat>, more: set<nat>)
    requires InTurn(invoked, gone, deleted) && deleted <= more
    ensures InTurn(invoked, gone, more)
  {
  }
}
