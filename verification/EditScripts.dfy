/**
 Edit scripts: what the two Damerau-Levenshtein functions of levenshtein.cc measure. A script rewrites a
 source from left to right into a target; the distance is the cost of a cheapest script.
 */
module EditScripts {
  import opened Basics

  type Byte = b: int | 0 <= b < 256

  type Bytes = seq<Byte>

  const NONE: Bytes := []

  /** Swap(skip, fill) exchanges two source bytes: `x W y` becomes `y V x`, where W are the `skip` bytes
      dropped from in between and V is the `fill` put there instead. */
  datatype Edit = Keep | Sub(c: Byte) | Ins(c: Byte) | Del | Swap(skip: nat, fill: Bytes)

  /** Costs of a script, and if bytes between a swapped pair may be edited (at unit cost per byte). With tight swaps,
      neither swapped byte may occur again in between on its own side. */
  datatype Rules = Rules(ci: real, cd: real, cs: real, ct: real, far: bool, tight: bool) {
    ghost predicate Valid() { 0.0 <= ci && 0.0 <= cd && 0.0 <= cs && 0.0 <= ct }

    /** With edited swaps, inserting or deleting a byte is no dearer than editing it inside a swap. */
    ghost predicate Tame() { Valid() && (far ==> ci <= 1.0 && cd <= 1.0) }

    function Exchanged(): Rules { this.(ci := cd, cd := ci) }

    function Tight(): Rules { this.(tight := true) }
  }

  function Takes(e: Edit): nat {
    match e case Ins(_) => 0 case Swap(skip, _) => skip + 2 case _ => 1
  }

  function Gives(e: Edit): nat {
    match e case Del => 0 case Swap(_, fill) => |fill| + 2 case _ => 1
  }

  function Emits(e: Edit, u: Bytes): Bytes
    requires |u| == Takes(e)
  {
    match e
    case Keep => u
    case Sub(c) => [c]
    case Ins(c) => [c]
    case Del => []
    case Swap(_, fill) => [u[|u| - 1]] + fill + [u[0]]
  }

  /** Edit e is allowed and rewrites u into v. */
  predicate Fits(k: Rules, e: Edit, u: Bytes, v: Bytes) {
    && |u| == Takes(e)
    && v == Emits(e, u)
    && (e.Swap? && !k.far ==> e.skip == 0 && e.fill == [])
    && (e.Swap? && k.tight ==> u[0] !in u[1..|u| - 1] && u[|u| - 1] !in e.fill)
  }

  predicate Turns(k: Rules, es: seq<Edit>, s: Bytes, t: Bytes) {
    if es == [] then s == [] && t == []
    else
      && Takes(es[0]) <= |s|
      && Gives(es[0]) <= |t|
      && Fits(k, es[0], s[..Takes(es[0])], t[..Gives(es[0])])
      && Turns(k, es[1..], s[Takes(es[0])..], t[Gives(es[0])..])
  }

  function Cost(k: Rules, e: Edit): real {
    match e
    case Keep => 0.0
    case Sub(_) => k.cs
    case Ins(_) => k.ci
    case Del => k.cd
    case Swap(skip, fill) => k.ct + skip as real + |fill| as real
  }

  function Total(k: Rules, es: seq<Edit>): real {
    if es == [] then 0.0 else Cost(k, es[0]) + Total(k, es[1..])
  }

  /** Script es rewrites s into t at cost r. */
  predicate Costs(k: Rules, es: seq<Edit>, s: Bytes, t: Bytes, r: real) {
    Turns(k, es, s, t) && Total(k, es) == r
  }

  /** r is the edit distance: the cost of some script from s to t, and of no script more. */
  ghost predicate Cheapest(k: Rules, s: Bytes, t: Bytes, r: real) {
    && (exists es :: Costs(k, es, s, t, r))
    && (forall es :: Turns(k, es, s, t) ==> r <= Total(k, es))
  }

  lemma CheapestUnique(k: Rules, s: Bytes, t: Bytes, r: real, q: real)
    requires Cheapest(k, s, t, r) && Cheapest(k, s, t, q)
    ensures r == q
  {
    var es :| Costs(k, es, s, t, r);
    var fs :| Costs(k, fs, s, t, q);
  }

  lemma {:induction false} NonNegative(k: Rules, es: seq<Edit>)
    requires k.Valid()
    ensures 0.0 <= Total(k, es)
  {
    if es != [] {
      NonNegative(k, es[1..]);
    }
  }

  // ----- scripts one after the other

  lemma Nothing(k: Rules)
    ensures Turns(k, [], [], []) && Total(k, []) == 0.0
  {
  }

  lemma JoinCuts<T>(s: seq<T>, u: seq<T>, i: nat)
    requires i <= |s|
    ensures (s + u)[i..] == s[i..] + u && (s + u)[..i] == s[..i]
  {
  }

  lemma {:induction false} Join(k: Rules, es: seq<Edit>, s: Bytes, t: Bytes, fs: seq<Edit>, u: Bytes, v: Bytes)
    requires Turns(k, es, s, t) && Turns(k, fs, u, v)
    ensures Turns(k, es + fs, s + u, t + v)
    ensures Total(k, es + fs) == Total(k, es) + Total(k, fs)
  {
    hide Fits, Takes, Gives, Cost;
    if es == [] {
      assert es + fs == fs && s + u == u && t + v == v;
    } else {
      var i, o := Takes(es[0]), Gives(es[0]);
      Join(k, es[1..], s[i..], t[o..], fs, u, v);
      JoinCuts(es, fs, 1);
      JoinCuts(s, u, i);
      JoinCuts(t, v, o);
    }
  }

  lemma Single(k: Rules, e: Edit, u: Bytes, v: Bytes)
    requires Fits(k, e, u, v)
    ensures Turns(k, [e], u, v) && Total(k, [e]) == Cost(k, e)
  {
    assert u[..Takes(e)] == u && v[..Gives(e)] == v;
    assert [e][1..] == [] && Total(k, [e][1..]) == 0.0;
  }

  lemma Append(k: Rules, es: seq<Edit>, s: Bytes, t: Bytes, e: Edit, u: Bytes, v: Bytes)
    requires Turns(k, es, s, t) && Fits(k, e, u, v)
    ensures Turns(k, es + [e], s + u, t + v)
    ensures Total(k, es + [e]) == Total(k, es) + Cost(k, e)
  {
    Single(k, e, u, v);
    Join(k, es, s, t, [e], u, v);
  }

  lemma Prepend(k: Rules, e: Edit, u: Bytes, v: Bytes, es: seq<Edit>, s: Bytes, t: Bytes)
    requires Fits(k, e, u, v) && Turns(k, es, s, t)
    ensures Turns(k, [e] + es, u + s, v + t)
    ensures Total(k, [e] + es) == Cost(k, e) + Total(k, es)
  {
    Single(k, e, u, v);
    Join(k, [e], u, v, es, s, t);
  }

  /** Every non-empty script starts with an edit of the starts of both strings. */
  lemma SplitFirst(k: Rules, es: seq<Edit>, s: Bytes, t: Bytes) returns (u: Bytes, s': Bytes, v: Bytes, t': Bytes)
    requires es != [] && Turns(k, es, s, t)
    ensures s == u + s' && t == v + t' && |u| == Takes(es[0]) && |v| == Gives(es[0])
    ensures u == s[..|u|] && s' == s[|u|..] && v == t[..|v|] && t' == t[|v|..]
    ensures Fits(k, es[0], u, v) && Turns(k, es[1..], s', t')
    ensures es == [es[0]] + es[1..] && Total(k, es) == Cost(k, es[0]) + Total(k, es[1..])
  {
    hide Fits, Takes, Gives, Cost;
    var i, o := Takes(es[0]), Gives(es[0]);
    u, s', v, t' := s[..i], s[i..], t[..o], t[o..];
  }

  lemma NoEdits(k: Rules, es: seq<Edit>, s: Bytes, t: Bytes)
    requires Turns(k, es, s, t) && es == []
    ensures s == [] && t == [] && Turns(k, [], [], []) && Total(k, []) == 0.0
  {
  }

  lemma Regroup<T>(u: seq<T>, s': seq<T>, p: seq<T>)
    ensures u + (s' + p) == (u + s') + p
  {
  }

  /** Every non-empty script ends with an edit of the ends of both strings. */
  lemma {:induction false} SplitLast(k: Rules, es: seq<Edit>, s: Bytes, t: Bytes)
    returns (fs: seq<Edit>, s': Bytes, u: Bytes, t': Bytes, v: Bytes)
    requires es != [] && Turns(k, es, s, t)
    ensures es == fs + [Last(es)] && s == s' + u && t == t' + v
    ensures Fits(k, Last(es), u, v) && Turns(k, fs, s', t')
    ensures Total(k, es) == Total(k, fs) + Cost(k, Last(es))
  {
    hide Fits, Takes, Gives, Cost, Turns;
    var p, s1, q, t1 := SplitFirst(k, es, s, t);
    if |es| == 1 {
      NoEdits(k, es[1..], s1, t1);
      fs, s', u, t', v := [], [], p, [], q;
    } else {
      var fs1, s2, t2;
      fs1, s2, u, t2, v := SplitLast(k, es[1..], s1, t1);
      Prepend(k, es[0], p, q, fs1, s2, t2);
      fs, s', t' := [es[0]] + fs1, p + s2, q + t2;
    }
  }

  // ----- scripts backwards

  function MirrorEdit(e: Edit): Edit {
    if e.Swap? then Swap(e.skip, Reverse(e.fill)) else e
  }

  function Mirror(es: seq<Edit>): seq<Edit> {
    if es == [] then [] else Mirror(es[1..]) + [MirrorEdit(es[0])]
  }

  lemma {:induction false} ReverseConcat<T>(a: seq<T>, b: seq<T>)
    ensures Reverse(a + b) == Reverse(b) + Reverse(a)
  {
    if a == [] {
      assert a + b == b;
    } else {
      ReverseConcat(a[1..], b);
      assert (a + b)[1..] == a[1..] + b;
    }
  }

  lemma {:induction false} ReverseTwice<T>(a: seq<T>)
    ensures Reverse(Reverse(a)) == a
  {
    if a != [] {
      ReverseTwice(a[1..]);
      ReverseConcat(Reverse(a[1..]), [a[0]]);
      assert Reverse([a[0]]) == [a[0]];
    }
  }

  lemma MirrorFits(k: Rules, e: Edit, u: Bytes, v: Bytes)
    requires Fits(k, e, u, v) && (k.far ==> !k.tight)
    ensures Fits(k, MirrorEdit(e), Reverse(u), Reverse(v))
    ensures Cost(k, MirrorEdit(e)) == Cost(k, e)
  {
    if e.Swap? {
      var w := u[1..|u| - 1];
      assert u == [u[0]] + (w + [u[|u| - 1]]);
      ReverseConcat([u[0]], w + [u[|u| - 1]]);
      ReverseConcat(w, [u[|u| - 1]]);
      assert v == [u[|u| - 1]] + (e.fill + [u[0]]);
      ReverseConcat([u[|u| - 1]], e.fill + [u[0]]);
      ReverseConcat(e.fill, [u[0]]);
      assert forall x: Byte :: Reverse([x]) == [x];
    }
  }

  lemma MirrorEmpty(k: Rules)
    ensures Reverse<Byte>([]) == [] && Mirror([]) == [] && Turns(k, [], [], [])
  {
  }

  lemma {:induction false} MirrorTurns(k: Rules, es: seq<Edit>, s: Bytes, t: Bytes)
    requires Turns(k, es, s, t) && (k.far ==> !k.tight)
    ensures Turns(k, Mirror(es), Reverse(s), Reverse(t))
    ensures Total(k, Mirror(es)) == Total(k, es)
  {
    hide Fits, Takes, Gives, Cost, MirrorEdit, Reverse;
    if es != [] {
      var u, s', v, t' := SplitFirst(k, es, s, t);
      MirrorTurns(k, es[1..], s', t');
      MirrorFits(k, es[0], u, v);
      Append(k, Mirror(es[1..]), Reverse(s'), Reverse(t'), MirrorEdit(es[0]), Reverse(u), Reverse(v));
      ReverseConcat(u, s');
      ReverseConcat(v, t');
    } else {
      MirrorEmpty(k);
    }
  }

  /** Reading both strings backwards does not change their distance. */
  lemma Mirrored(k: Rules, s: Bytes, t: Bytes, r: real)
    requires Cheapest(k, s, t, r) && (k.far ==> !k.tight)
    ensures Cheapest(k, Reverse(s), Reverse(t), r)
  {
    var es :| Costs(k, es, s, t, r);
    MirrorTurns(k, es, s, t);
    assert Costs(k, Mirror(es), Reverse(s), Reverse(t), r);
    forall fs | Turns(k, fs, Reverse(s), Reverse(t)) ensures r <= Total(k, fs) {
      MirrorTurns(k, fs, Reverse(s), Reverse(t));
      ReverseTwice(s);
      ReverseTwice(t);
    }
  }

  // ----- scripts undone

  function Undo(e: Edit, u: Bytes): Edit
    requires |u| == Takes(e)
  {
    match e
    case Keep => Keep
    case Sub(_) => Sub(u[0])
    case Ins(_) => Del
    case Del => Ins(u[0])
    case Swap(_, fill) => Swap(|fill|, u[1..|u| - 1])
  }

  function Inverse(k: Rules, es: seq<Edit>, s: Bytes, t: Bytes): seq<Edit>
    requires Turns(k, es, s, t)
  {
    if es == [] then []
    else
      var i, o := Takes(es[0]), Gives(es[0]);
      [Undo(es[0], s[..i])] + Inverse(k, es[1..], s[i..], t[o..])
  }

  lemma UndoFits(k: Rules, e: Edit, u: Bytes, v: Bytes)
    requires Fits(k, e, u, v)
    ensures Fits(k.Exchanged(), Undo(e, u), v, u)
    ensures Cost(k.Exchanged(), Undo(e, u)) == Cost(k, e)
  {
    if e.Swap? {
      assert u == [u[0]] + u[1..|u| - 1] + [u[|u| - 1]];
      assert v[0] == u[|u| - 1] && v[|v| - 1] == u[0];
    }
  }

  lemma {:induction false} InverseTurns(k: Rules, es: seq<Edit>, s: Bytes, t: Bytes)
    requires Turns(k, es, s, t)
    ensures Turns(k.Exchanged(), Inverse(k, es, s, t), t, s)
    ensures Total(k.Exchanged(), Inverse(k, es, s, t)) == Total(k, es)
  {
    if es != [] {
      var u, s', v, t' := SplitFirst(k, es, s, t);
      InverseTurns(k, es[1..], s', t');
      UndoFits(k, es[0], u, v);
      Prepend(k.Exchanged(), Undo(es[0], u), v, u, Inverse(k, es[1..], s', t'), t', s');
    }
  }

  /** Rewriting t into s costs as much as s into t when insertions and deletions exchange their costs. */
  lemma Undone(k: Rules, s: Bytes, t: Bytes, r: real)
    requires Cheapest(k, s, t, r)
    ensures Cheapest(k.Exchanged(), t, s, r)
  {
    var es :| Costs(k, es, s, t, r);
    InverseTurns(k, es, s, t);
    assert Costs(k.Exchanged(), Inverse(k, es, s, t), t, s, r);
    forall fs | Turns(k.Exchanged(), fs, t, s) ensures r <= Total(k.Exchanged(), fs) {
      InverseTurns(k.Exchanged(), fs, t, s);
    }
  }

  /** The distance is symmetric when insertions cost as much as deletions. */
  lemma Symmetric(k: Rules, s: Bytes, t: Bytes, r: real)
    requires k.ci == k.cd
    ensures Cheapest(k, s, t, r) <==> Cheapest(k, t, s, r)
  {
    if Cheapest(k, s, t, r) {
      Undone(k, s, t, r);
    } else if Cheapest(k, t, s, r) {
      Undone(k, t, s, r);
    }
  }

  // ----- plain deletions and insertions

  function Dels(n: nat): seq<Edit> {
    if n == 0 then [] else [Del] + Dels(n - 1)
  }

  function Inss(v: Bytes): seq<Edit> {
    if v == [] then [] else [Ins(v[0])] + Inss(v[1..])
  }

  /** The cost of n edits at c each. */
  function Times(n: nat, c: real): real { n as real * c }

  lemma Distribute(n: nat, c: real)
    ensures Times(n + 1, c) == c + Times(n, c) && Times(0, c) == 0.0
  {
    assert (n + 1) as real == n as real + 1.0;
  }

  lemma {:induction false} DelsTurn(k: Rules, w: Bytes)
    ensures Turns(k, Dels(|w|), w, [])
    ensures Total(k, Dels(|w|)) == Times(|w|, k.cd)
  {
    hide Turns, Total, Times;
    Nothing(k);
    Distribute(0, k.cd);
    if w != [] {
      DelsTurn(k, w[1..]);
      Prepend(k, Del, [w[0]], [], Dels(|w| - 1), w[1..], []);
      assert [w[0]] + w[1..] == w && [] + [] == NONE;
      Distribute(|w| - 1, k.cd);
    }
  }

  lemma {:induction false} InssTurn(k: Rules, v: Bytes)
    ensures Turns(k, Inss(v), [], v)
    ensures Total(k, Inss(v)) == Times(|v|, k.ci)
  {
    hide Turns, Total, Times;
    Nothing(k);
    Distribute(0, k.ci);
    if v != [] {
      InssTurn(k, v[1..]);
      Prepend(k, Ins(v[0]), [], [v[0]], Inss(v[1..]), [], v[1..]);
      assert [v[0]] + v[1..] == v && [] + [] == NONE;
      Distribute(|v| - 1, k.ci);
    }
  }

  /** Deletes w, then inserts v. */
  lemma Replace(k: Rules, w: Bytes, v: Bytes)
    ensures Turns(k, Dels(|w|) + Inss(v), w, v)
    ensures Total(k, Dels(|w|) + Inss(v)) == Times(|w|, k.cd) + Times(|v|, k.ci)
  {
    hide Times;
    DelsTurn(k, w);
    InssTurn(k, v);
    Join(k, Dels(|w|), w, [], Inss(v), [], v);
    assert w + [] == w && [] + v == v;
  }

  // ----- common ends

  lemma Scaled(n: nat, c: real)
    requires 0.0 <= c <= 1.0
    ensures Times(n, c) <= n as real
  {
  }

  /** What lies between a swapped pair can be edited outside the swap at no extra cost. */
  lemma EditBetween(k: Rules, e: Edit, w: Bytes)
    requires k.Tame() && e.Swap? && e.skip == |w| && (!k.far ==> w == [] && e.fill == [])
    ensures Times(|w|, k.cd) + Times(|e.fill|, k.ci) <= Cost(k, e)
  {
    hide Times;
    if k.far {
      Scaled(|w|, k.cd);
      Scaled(|e.fill|, k.ci);
    } else {
      Distribute(0, k.cd);
      Distribute(0, k.ci);
    }
  }

  lemma SwapParts(k: Rules, e: Edit, u: Bytes, v: Bytes) returns (x: Byte, w: Bytes, y: Byte)
    requires e.Swap? && Fits(k, e, u, v)
    ensures u == [x] + (w + [y]) && v == [y] + (e.fill + [x]) && |w| == e.skip
    ensures !k.far ==> w == [] && e.fill == []
    ensures k.tight ==> x !in w && y !in e.fill
  {
    x, w, y := u[0], u[1..|u| - 1], u[|u| - 1];
    assert u == [x] + (w + [y]);
    Regroup([y], e.fill, [x]);
  }

  lemma Behead<T>(x: T, t: seq<T>, y: T, v: seq<T>, t': seq<T>)
    requires [x] + t == ([y] + v) + t'
    ensures x == y && t == v + t'
  {
    assert [x] + t == [y] + (v + t');
    assert ([x] + t)[0] == x && ([x] + t)[1..] == t;
    assert ([y] + (v + t'))[0] == y && ([y] + (v + t'))[1..] == v + t';
  }

  /** The script of a swap seen without its first target byte: p w q -> fill p. */
  lemma SwapWithoutTarget(k: Rules, e: Edit, p: Byte, w: Bytes, q: Byte) returns (fs: seq<Edit>)
    requires k.Tame() && e.Swap? && e.skip == |w| && (!k.far ==> w == [] && e.fill == [])
    ensures Turns(k, fs, [p] + (w + [q]), e.fill + [p])
    ensures Total(k, fs) <= Cost(k, e) + k.cd
  {
    hide Turns, Total, Times;
    InssTurn(k, e.fill);
    Append(k, Inss(e.fill), [], e.fill, Keep, [p], [p]);
    DelsTurn(k, w + [q]);
    Join(k, Inss(e.fill) + [Keep], [] + [p], e.fill + [p], Dels(|w + [q]|), w + [q], []);
    fs := Inss(e.fill) + [Keep] + Dels(|w + [q]|);
    assert [] + [p] == [p] && (e.fill + [p]) + [] == e.fill + [p];
    Distribute(|w|, k.cd);
    EditBetween(k, e, w);
  }

  /** Leaving out the first target byte costs at most a deletion. */
  lemma {:induction false} DropTarget(k: Rules, es: seq<Edit>, s: Bytes, x: Byte, t: Bytes) returns (fs: seq<Edit>)
    requires k.Tame() && Turns(k, es, s, [x] + t)
    ensures Turns(k, fs, s, t) && Total(k, fs) <= Total(k, es) + k.cd
    decreases |es|
  {
    hide Turns, Total;
    HasEdits(k, es, s, x, t);
    var u, s', v, t' := SplitFirst(k, es, s, [x] + t);
    match es[0]
    case Del =>
      assert v == [] && t' == [x] + t;
      var fs1 := DropTarget(k, es[1..], s', x, t);
      Prepend(k, Del, u, [], fs1, s', t);
      assert [] + t == t;
      fs := [Del] + fs1;
    case Ins(c) =>
      assert v == [c] + [];
      Behead(x, t, c, [], t');
      assert [] + t' == t' && u + s' == s';
      fs := es[1..];
    case Keep => fs := DropMatched(k, es, u, s', v, t', x, t);
    case Sub(_) => fs := DropMatched(k, es, u, s', v, t', x, t);
    case Swap(_, fill) =>
      var p, w, q := SwapParts(k, es[0], u, v);
      Behead(x, t, q, fill + [p], t');
      var fs1 := SwapWithoutTarget(k, es[0], p, w, q);
      Join(k, fs1, u, fill + [p], es[1..], s', t');
      fs := fs1 + es[1..];
  }

  lemma DropMatched(k: Rules, es: seq<Edit>, u: Bytes, s': Bytes, v: Bytes, t': Bytes, x: Byte, t: Bytes)
    returns (fs: seq<Edit>)
    requires k.Valid() && es != [] && (es[0].Keep? || es[0].Sub?)
    requires Fits(k, es[0], u, v) && Turns(k, es[1..], s', t') && [x] + t == v + t'
    requires Total(k, es) == Cost(k, es[0]) + Total(k, es[1..])
    ensures Turns(k, fs, u + s', t) && Total(k, fs) <= Total(k, es) + k.cd
  {
    hide Turns, Total;
    assert v == [v[0]] + [];
    Behead(x, t, v[0], [], t');
    Prepend(k, Del, u, [], es[1..], s', t');
    assert [] + t' == t';
    fs := [Del] + es[1..];
  }

  lemma HasEdits(k: Rules, es: seq<Edit>, s: Bytes, x: Byte, t: Bytes)
    requires Turns(k, es, s, [x] + t)
    ensures es != []
  {
  }

  /** Leaving out the first source byte costs at most an insertion. */
  lemma DropSource(k: Rules, es: seq<Edit>, x: Byte, s: Bytes, t: Bytes) returns (fs: seq<Edit>)
    requires k.Tame() && Turns(k, es, [x] + s, t)
    ensures Turns(k, fs, s, t) && Total(k, fs) <= Total(k, es) + k.ci
  {
    hide Turns, Total;
    InverseTurns(k, es, [x] + s, t);
    var gs := DropTarget(k.Exchanged(), Inverse(k, es, [x] + s, t), t, x, s);
    InverseTurns(k.Exchanged(), gs, t, s);
    fs := Inverse(k.Exchanged(), gs, t, s);
  }

  /** The script of a swap of two equal bytes, both left out: w x -> fill x. */
  lemma SwapWithoutBoth(k: Rules, e: Edit, w: Bytes, x: Byte) returns (fs: seq<Edit>)
    requires k.Tame() && e.Swap? && e.skip == |w| && (!k.far ==> w == [] && e.fill == [])
    ensures Turns(k, fs, w + [x], e.fill + [x])
    ensures Total(k, fs) <= Cost(k, e)
  {
    hide Turns, Total, Times;
    Replace(k, w, e.fill);
    Append(k, Dels(|w|) + Inss(e.fill), w, e.fill, Keep, [x], [x]);
    fs := Dels(|w|) + Inss(e.fill) + [Keep];
    EditBetween(k, e, w);
  }

  /** A first byte common to source and target can be left out of both. */
  lemma DropBoth(k: Rules, es: seq<Edit>, x: Byte, s: Bytes, t: Bytes) returns (fs: seq<Edit>)
    requires k.Tame() && Turns(k, es, [x] + s, [x] + t)
    ensures Turns(k, fs, s, t) && Total(k, fs) <= Total(k, es)
  {
    hide Turns, Total;
    HasEdits(k, es, [x] + s, x, t);
    var u, s', v, t' := SplitFirst(k, es, [x] + s, [x] + t);
    match es[0]
    case Del =>
      assert v == [] && t' == [x] + t && u == [u[0]] + [];
      Behead(x, s, u[0], [], s');
      assert [] + s' == s';
      fs := DropTarget(k, es[1..], s', x, t);
    case Ins(c) =>
      assert u == [] && s' == [x] + s && v == [c] + [];
      Behead(x, t, c, [], t');
      assert [] + t' == t';
      fs := DropSource(k, es[1..], x, s, t');
    case Swap(_, fill) =>
      var p, w, q := SwapParts(k, es[0], u, v);
      Behead(x, s, p, w + [q], s');
      Behead(x, t, q, fill + [p], t');
      var fs1 := SwapWithoutBoth(k, es[0], w, x);
      Join(k, fs1, w + [q], fill + [p], es[1..], s', t');
      fs := fs1 + es[1..];
    case Keep => fs := DropPair(k, es, u, s', v, t', x, s, t);
    case Sub(_) => fs := DropPair(k, es, u, s', v, t', x, s, t);
  }

  lemma DropPair(k: Rules, es: seq<Edit>, u: Bytes, s': Bytes, v: Bytes, t': Bytes, x: Byte, s: Bytes, t: Bytes)
    returns (fs: seq<Edit>)
    requires k.Valid() && es != [] && (es[0].Keep? || es[0].Sub?)
    requires Fits(k, es[0], u, v) && Turns(k, es[1..], s', t') && [x] + t == v + t' && [x] + s == u + s'
    requires Total(k, es) == Cost(k, es[0]) + Total(k, es[1..])
    ensures Turns(k, fs, s, t) && Total(k, fs) <= Total(k, es)
  {
    hide Turns, Total;
    assert v == [v[0]] + [] && u == [u[0]] + [];
    Behead(x, t, v[0], [], t');
    Behead(x, s, u[0], [], s');
    assert [] + t' == t' && [] + s' == s';
    fs := es[1..];
  }

  /** A common first byte does not change the distance. */
  lemma CommonFirst(k: Rules, x: Byte, s: Bytes, t: Bytes, r: real)
    requires k.Tame() && Cheapest(k, s, t, r)
    ensures Cheapest(k, [x] + s, [x] + t, r)
  {
    hide Turns, Total;
    var es :| Costs(k, es, s, t, r);
    Prepend(k, Keep, [x], [x], es, s, t);
    assert Costs(k, [Keep] + es, [x] + s, [x] + t, r);
    forall fs | Turns(k, fs, [x] + s, [x] + t) ensures r <= Total(k, fs) {
      var gs := DropBoth(k, fs, x, s, t);
    }
  }

  /** A common last byte does not change the distance. */
  lemma CommonLast(k: Rules, s: Bytes, t: Bytes, x: Byte, r: real)
    requires k.Tame() && Cheapest(k, s, t, r) && (k.far ==> !k.tight)
    ensures Cheapest(k, s + [x], t + [x], r)
  {
    hide Cheapest;
    Mirrored(k, s, t, r);
    CommonFirst(k, x, Reverse(s), Reverse(t), r);
    Mirrored(k, [x] + Reverse(s), [x] + Reverse(t), r);
    ReverseTwice(s);
    ReverseTwice(t);
  }
}
