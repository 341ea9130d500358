/** The two distance functions of levenshtein.cc, over exact costs. */
module EditDistance {
  import opened Basics
  import opened EditScripts

  function Min3(a: real, b: real, c: real): real {
    var d := if b < c then b else c;
    if a < d then a else d
  }

  function Least(a: real, b: real): real { if b < a then b else a }

  // ----- borders of the matrix

  lemma {:induction false} InsertsOnly(k: Rules, es: seq<Edit>, t: Bytes)
    requires Turns(k, es, [], t)
    ensures Total(k, es) == Times(|t|, k.ci)
  {
    hide Times;
    Distribute(0, k.ci);
    if es != [] {
      InsertsOnly(k, es[1..], t[1..]);
      Distribute(|t| - 1, k.ci);
    }
  }

  lemma FromNothing(k: Rules, t: Bytes)
    ensures Cheapest(k, [], t, Times(|t|, k.ci))
  {
    hide Times;
    InssTurn(k, t);
    assert Costs(k, Inss(t), [], t, Times(|t|, k.ci));
    forall es | Turns(k, es, [], t) ensures Times(|t|, k.ci) <= Total(k, es) {
      InsertsOnly(k, es, t);
    }
  }

  lemma ToNothing(k: Rules, s: Bytes)
    ensures Cheapest(k, s, [], Times(|s|, k.cd))
  {
    hide Cheapest, Times;
    var e := k.Exchanged();
    FromNothing(e, s);
    var r := Times(|s|, e.ci);
    Undone(e, [], s, r);
    assert e.Exchanged() == k;
    assert Cheapest(k, s, [], r);
    assert r == Times(|s|, k.cd);
  }

  // ----- one cell of the matrix

  function Plain(k: Rules, x: Byte, y: Byte, up: real, left: real, diag: real): real {
    Min3(up + k.cd, left + k.ci, diag + (if x == y then 0.0 else k.cs))
  }

  /** The neighbours of the cell for s + [x] and t + [y]. */
  ghost predicate Neighbours(k: Rules, s: Bytes, x: Byte, t: Bytes, y: Byte, up: real, left: real, diag: real) {
    Cheapest(k, s, t + [y], up) && Cheapest(k, s + [x], t, left) && Cheapest(k, s, t, diag)
  }

  lemma Behind<T>(s: seq<T>, x: T, s': seq<T>, u: seq<T>, p: T)
    requires s + [x] == s' + (u + [p])
    ensures x == p && s == s' + u
  {
    assert s + [x] == (s' + u) + [p];
    assert (s + [x])[..|s|] == s && ((s' + u) + [p])[..|s' + u|] == s' + u;
    assert (s + [x])[|s|] == x && ((s' + u) + [p])[|s' + u|] == p;
  }

  lemma Unswapped(k: Rules, es: seq<Edit>, s: Bytes, x: Byte, t: Bytes, y: Byte, up: real, left: real, diag: real)
    requires Turns(k, es, s + [x], t + [y]) && Neighbours(k, s, x, t, y, up, left, diag)
    requires k.Valid() && es != [] && !Last(es).Swap?
    ensures Plain(k, x, y, up, left, diag) <= Total(k, es)
  {
    hide Turns, Total;
    var fs, s', u, t', v := SplitLast(k, es, s + [x], t + [y]);
    if !Last(es).Ins? {
      assert u == [] + [u[0]];
      Behind(s, x, s', [], u[0]);
      assert s' + [] == s';
    }
    if !Last(es).Del? {
      assert v == [] + [v[0]];
      Behind(t, y, t', [], v[0]);
      assert t' + [] == t';
    }
    if Last(es).Ins? {
      assert u == [] && s' + [] == s';
    } else if Last(es).Del? {
      assert v == [] && t' + [] == t';
    }
  }

  lemma PlainScripts(k: Rules, s: Bytes, x: Byte, t: Bytes, y: Byte, up: real, left: real, diag: real)
    returns (es: seq<Edit>)
    requires Neighbours(k, s, x, t, y, up, left, diag)
    ensures Costs(k, es, s + [x], t + [y], Plain(k, x, y, up, left, diag))
  {
    hide Turns, Total;
    var r := Plain(k, x, y, up, left, diag);
    if r == up + k.cd {
      var fs :| Costs(k, fs, s, t + [y], up);
      Append(k, fs, s, t + [y], Del, [x], []);
      assert (t + [y]) + [] == t + [y];
      es := fs + [Del];
    } else if r == left + k.ci {
      var fs :| Costs(k, fs, s + [x], t, left);
      Append(k, fs, s + [x], t, Ins(y), [], [y]);
      assert (s + [x]) + [] == s + [x];
      es := fs + [Ins(y)];
    } else {
      var fs :| Costs(k, fs, s, t, diag);
      var e := if x == y then Keep else Sub(y);
      Append(k, fs, s, t, e, [x], [y]);
      es := fs + [e];
    }
  }

  lemma NonEmptyScript(k: Rules, es: seq<Edit>, s: Bytes, x: Byte, t: Bytes)
    requires Turns(k, es, s + [x], t)
    ensures es != []
  {
  }

  // ----- restricted transpositions

  predicate Crossed(s: Bytes, x: Byte, t: Bytes, y: Byte) {
    x != y && s != [] && t != [] && x == Last(t) && Last(s) == y
  }

  /** The value the code stores for a cell; `corner` is two rows up and two columns left. */
  function NearCell(k: Rules, s: Bytes, x: Byte, t: Bytes, y: Byte, up: real, left: real, diag: real,
                    corner: real): real {
    var r := Plain(k, x, y, up, left, diag);
    if Crossed(s, x, t, y) then Least(r, corner + k.ct) else r
  }

  lemma NearLower(k: Rules, es: seq<Edit>, s: Bytes, x: Byte, t: Bytes, y: Byte, up: real, left: real, diag: real,
                  corner: real)
    requires k.Valid() && !k.far && Turns(k, es, s + [x], t + [y]) && Neighbours(k, s, x, t, y, up, left, diag)
    requires Crossed(s, x, t, y) ==> Cheapest(k, s[..|s| - 1], t[..|t| - 1], corner)
    ensures NearCell(k, s, x, t, y, up, left, diag, corner) <= Total(k, es)
  {
    hide Turns, Total;
    NonEmptyScript(k, es, s, x, t + [y]);
    if !Last(es).Swap? {
      Unswapped(k, es, s, x, t, y, up, left, diag);
    } else {
      var fs, s', u, t', v := SplitLast(k, es, s + [x], t + [y]);
      var p, w, q := SwapParts(k, Last(es), u, v);
      assert u == [p] + [q] && v == [q] + [p];
      Behind(s, x, s', [p], q);
      Behind(t, y, t', [q], p);
      if x == y {
        Append(k, fs, s', t', Keep, [p], [q]);
        assert diag <= Total(k, fs + [Keep]);
      } else {
        assert s[..|s| - 1] == s' && t[..|t| - 1] == t';
      }
    }
  }

  lemma NearUpper(k: Rules, s: Bytes, x: Byte, t: Bytes, y: Byte, corner: real) returns (es: seq<Edit>)
    requires Crossed(s, x, t, y) && Cheapest(k, s[..|s| - 1], t[..|t| - 1], corner)
    ensures Costs(k, es, s + [x], t + [y], corner + k.ct)
  {
    hide Turns, Total;
    var s', t' := s[..|s| - 1], t[..|t| - 1];
    var fs :| Costs(k, fs, s', t', corner);
    Append(k, fs, s', t', Swap(0, []), [y, x], [x, y]);
    assert s' + [y, x] == s + [x] && t' + [x, y] == t + [y];
    es := fs + [Swap(0, [])];
  }

  /** A cell computed from cheapest neighbours is cheapest. */
  lemma NearStep(k: Rules, s: Bytes, x: Byte, t: Bytes, y: Byte, up: real, left: real, diag: real, corner: real)
    requires k.Valid() && !k.far && Neighbours(k, s, x, t, y, up, left, diag)
    requires Crossed(s, x, t, y) ==> Cheapest(k, s[..|s| - 1], t[..|t| - 1], corner)
    ensures Cheapest(k, s + [x], t + [y], NearCell(k, s, x, t, y, up, left, diag, corner))
  {
    hide Neighbours, Turns, Total;
    var es := PlainScripts(k, s, x, t, y, up, left, diag);
    if Crossed(s, x, t, y) {
      var fs := NearUpper(k, s, x, t, y, corner);
      assert Costs(k, fs, s + [x], t + [y], corner + k.ct);
    }
    forall es | Turns(k, es, s + [x], t + [y])
      ensures NearCell(k, s, x, t, y, up, left, diag, corner) <= Total(k, es)
    {
      NearLower(k, es, s, x, t, y, up, left, diag, corner);
    }
  }

  /** A row holds the distances of s to every prefix of t. */
  ghost predicate RowFor(k: Rules, s: Bytes, t: Bytes, row: seq<real>) {
    |row| == |t| + 1 && forall j :: 0 <= j <= |t| ==> Cheapest(k, s, t[..j], row[j])
  }

  predicate Rows(mem: array<real>, w: nat, a: nat, b: nat, c: nat) {
    && a + w <= mem.Length && b + w <= mem.Length && c + w <= mem.Length
    && Disjoint(a, b, w) && Disjoint(a, c, w) && Disjoint(b, c, w)
  }

  predicate Disjoint(a: nat, b: nat, w: nat) { a + w <= b || b + w <= a }

  lemma PrefixGrows(s: Bytes, i: nat)
    requires 0 < i <= |s|
    ensures s[..i] == s[..i - 1] + [s[i - 1]]
    ensures i > 1 ==> s[..i - 1][..i - 2] == s[..i - 2] && Last(s[..i - 1]) == s[i - 2]
  {
  }

  /** The value stored at row0[j]. */
  function Cell(k: Rules, s: Bytes, t: Bytes, i: nat, j: nat, left: real, up: real, diag: real, corner: real): real
    requires 0 < i <= |s| && 0 < j <= |t|
  {
    var ue := s[i - 1] != t[j - 1];
    var r := Min3(up + k.cd, left + k.ci, diag + if ue then k.cs else 0.0);
    if ue && i > 1 && j > 1 && s[i - 1] == t[j - 2] && s[i - 2] == t[j - 1] then Least(r, corner + k.ct) else r
  }

  lemma FillCell(k: Rules, s: Bytes, t: Bytes, i: nat, j: nat, up: seq<real>, corner: seq<real>, left: real)
    requires k.Valid() && !k.far && 0 < i <= |s| && 0 < j <= |t| && |corner| == |t| + 1
    requires RowFor(k, s[..i - 1], t, up) && (i > 1 ==> RowFor(k, s[..i - 2], t, corner))
    requires Cheapest(k, s[..i], t[..j - 1], left)
    ensures Cheapest(k, s[..i], t[..j],
                     Cell(k, s, t, i, j, left, up[j], up[j - 1], if j > 1 then corner[j - 2] else 0.0))
  {
    hide Cheapest, Least, Min3;
    PrefixGrows(s, i);
    PrefixGrows(t, j);
    NearStep(k, s[..i - 1], s[i - 1], t[..j - 1], t[j - 1], up[j], left, up[j - 1],
             if j > 1 then corner[j - 2] else 0.0);
  }

  /** The body of the inner loop. */
  method SetCell(k: Rules, s: Bytes, t: Bytes, i: nat, j: nat, mem: array<real>, row2: nat, row1: nat, row0: nat)
    requires 0 < i <= |s| && 0 < j <= |t| && Rows(mem, |t| + 1, row2, row1, row0)
    modifies mem
    ensures forall h :: 0 <= h < mem.Length && h != row0 + j ==> mem[h] == old(mem[h])
    ensures mem[row0 + j] == Cell(k, s, t, i, j, old(mem[row0 + j - 1]), old(mem[row1 + j]), old(mem[row1 + j - 1]),
                                  if j > 1 then old(mem[row2 + j - 2]) else 0.0)
  {
    hide Min3, Least;
    var ue := s[i - 1] != t[j - 1];
    mem[row0 + j] := Min3(mem[row1 + j] + k.cd,
                          mem[row0 + j - 1] + k.ci,
                          mem[row1 + j - 1] + if ue then k.cs else 0.0);
    if ue && i > 1 && j > 1 && s[i - 1] == t[j - 2] && s[i - 2] == t[j - 1] {
      mem[row0 + j] := Least(mem[row0 + j], mem[row2 + j - 2] + k.ct);
    }
  }

  /** One pass of the inner loop: row0 for i from row1 for i - 1 and row2 for i - 2. */
  method FillRow(k: Rules, s: Bytes, t: Bytes, i: nat, mem: array<real>, row2: nat, row1: nat, row0: nat)
    requires k.Valid() && !k.far && 0 < i <= |s| && Rows(mem, |t| + 1, row2, row1, row0)
    requires RowFor(k, s[..i - 1], t, mem[row1..row1 + |t| + 1])
    requires i > 1 ==> RowFor(k, s[..i - 2], t, mem[row2..row2 + |t| + 1])
    modifies mem
    ensures mem[row1..row1 + |t| + 1] == old(mem[row1..row1 + |t| + 1])
    ensures RowFor(k, s[..i], t, mem[row0..row0 + |t| + 1])
  {
    hide Cheapest, Cell, Times;
    ghost var up, corner := mem[row1..row1 + |t| + 1], mem[row2..row2 + |t| + 1];
    mem[row0] := Times(i, k.cd);
    ToNothing(k, s[..i]);
    for j := 1 to |t| + 1
      invariant mem[row1..row1 + |t| + 1] == up && mem[row2..row2 + |t| + 1] == corner
      invariant forall h :: 0 <= h < j ==> Cheapest(k, s[..i], t[..h], mem[row0 + h])
    {
      FillCell(k, s, t, i, j, up, corner, mem[row0 + j - 1]);
      SetCell(k, s, t, i, j, mem, row2, row1, row0);
    }
  }

  /** The three rotating rows. */
  method FillRows(k: Rules, s: Bytes, t: Bytes) returns (r: real)
    requires k.Valid() && !k.far
    ensures Cheapest(k, s, t, r)
  {
    hide Cheapest, Times;
    var w := |t| + 1;
    var mem := new real[3 * w];
    var row2: nat, row1: nat, row0: nat := 0, w, w + w;
    for j := 0 to w
      invariant forall h :: 0 <= h < j ==> Cheapest(k, s[..0], t[..h], mem[row1 + h])
    {
      mem[row1 + j] := Times(j, k.ci);
      FromNothing(k, t[..j]);
      assert s[..0] == [];
    }
    for i := 1 to |s| + 1
      invariant Rows(mem, w, row2, row1, row0)
      invariant RowFor(k, s[..i - 1], t, mem[row1..row1 + w])
      invariant i > 1 ==> RowFor(k, s[..i - 2], t, mem[row2..row2 + w])
    {
      FillRow(k, s, t, i, mem, row2, row1, row0);
      row2, row1, row0 := row1, row0, row2;
    }
    assert s[..|s|] == s && t[..|t|] == t;
    assert mem[row1..row1 + w][|t|] == mem[row1 + |t|];
    r := mem[row1 + |t|];
  }

  // ----- common ends

  function WithoutSuffix(s: Bytes, t: Bytes): (Bytes, Bytes) {
    if s != [] && t != [] && Last(s) == Last(t) then WithoutSuffix(s[..|s| - 1], t[..|t| - 1]) else (s, t)
  }

  /** What is left of two strings without their common prefix, then without the common suffix. */
  function Residue(s: Bytes, t: Bytes): (Bytes, Bytes) {
    if s != [] && t != [] && s[0] == t[0] then Residue(s[1..], t[1..]) else WithoutSuffix(s, t)
  }

  lemma TrimFirst(s: Bytes, t: Bytes, a: nat)
    requires a < |s| && a < |t| && s[a] == t[a]
    ensures Residue(s[a..], t[a..]) == Residue(s[a + 1..], t[a + 1..])
    ensures s[..a] == t[..a] ==> s[..a + 1] == t[..a + 1]
  {
    hide WithoutSuffix;
    assert s[a..][1..] == s[a + 1..] && t[a..][1..] == t[a + 1..];
    assert s[..a + 1] == s[..a] + [s[a]] && t[..a + 1] == t[..a] + [t[a]];
  }

  lemma TrimLast(s: Bytes, t: Bytes, a: nat, n: nat, m: nat)
    requires a + n < |s| && a + m < |t| && s[a + n] == t[a + m]
    ensures WithoutSuffix(s[a..a + n + 1], t[a..a + m + 1]) == WithoutSuffix(s[a..a + n], t[a..a + m])
    ensures s[a + n + 1..] == t[a + m + 1..] ==> s[a + n..] == t[a + m..]
  {
    assert s[a..a + n + 1][..n] == s[a..a + n] && t[a..a + m + 1][..m] == t[a..a + m];
    assert s[a + n..] == [s[a + n]] + s[a + n + 1..] && t[a + m..] == [t[a + m]] + t[a + m + 1..];
  }

  method TrimPrefix(s: Bytes, t: Bytes) returns (a: nat)
    ensures a <= |s| && a <= |t| && s[..a] == t[..a]
    ensures WithoutSuffix(s[a..], t[a..]) == Residue(s, t)
  {
    hide WithoutSuffix;
    a := 0;
    while a < |s| && a < |t| && s[a] == t[a]
      invariant a <= |s| && a <= |t| && s[..a] == t[..a]
      invariant Residue(s[a..], t[a..]) == Residue(s, t)
    {
      TrimFirst(s, t, a);
      a := a + 1;
    }
  }

  method Trim(s: Bytes, t: Bytes) returns (a: nat, n: nat, m: nat)
    ensures a + n <= |s| && a + m <= |t|
    ensures s[..a] == t[..a] && s[a + n..] == t[a + m..]
    ensures (s[a..a + n], t[a..a + m]) == Residue(s, t)
  {
    hide Residue;
    a := TrimPrefix(s, t);
    n, m := |s| - a, |t| - a;
    assert s[a..a + n] == s[a..] && t[a..a + m] == t[a..];
    while n > 0 && m > 0 && s[a + n - 1] == t[a + m - 1]
      invariant a + n <= |s| && a + m <= |t| && s[a + n..] == t[a + m..]
      invariant WithoutSuffix(s[a..a + n], t[a..a + m]) == Residue(s, t)
    {
      n, m := n - 1, m - 1;
      TrimLast(s, t, a, n, m);
    }
  }

  lemma {:induction false} CommonPrefix(k: Rules, p: Bytes, s: Bytes, t: Bytes, r: real)
    requires k.Tame() && Cheapest(k, s, t, r)
    ensures Cheapest(k, p + s, p + t, r)
  {
    hide Cheapest;
    if p == [] {
      assert p + s == s && p + t == t;
    } else {
      CommonPrefix(k, p[1..], s, t, r);
      CommonFirst(k, p[0], p[1..] + s, p[1..] + t, r);
      assert p + s == [p[0]] + (p[1..] + s) && p + t == [p[0]] + (p[1..] + t);
    }
  }

  lemma {:induction false} CommonSuffix(k: Rules, s: Bytes, t: Bytes, q: Bytes, r: real)
    requires k.Tame() && (k.far ==> !k.tight) && Cheapest(k, s, t, r)
    ensures Cheapest(k, s + q, t + q, r)
    decreases |q|
  {
    hide Cheapest;
    if q == [] {
      assert s + q == s && t + q == t;
    } else {
      CommonLast(k, s, t, q[0], r);
      CommonSuffix(k, s + [q[0]], t + [q[0]], q[1..], r);
      assert s + q == (s + [q[0]]) + q[1..] && t + q == (t + [q[0]]) + q[1..];
    }
  }

  /** Trimming common ends does not change the distance. */
  lemma CommonEnds(k: Rules, s: Bytes, t: Bytes, a: nat, n: nat, m: nat, r: real)
    requires a + n <= |s| && a + m <= |t| && s[..a] == t[..a] && s[a + n..] == t[a + m..]
    requires k.Tame() && (k.far ==> !k.tight) && Cheapest(k, s[a..a + n], t[a..a + m], r)
    ensures Cheapest(k, s, t, r)
  {
    hide Cheapest;
    CommonSuffix(k, s[a..a + n], t[a..a + m], s[a + n..], r);
    CommonPrefix(k, s[..a], s[a..a + n] + s[a + n..], t[a..a + m] + s[a + n..], r);
    assert s == s[..a] + (s[a..a + n] + s[a + n..]);
    assert t == t[..a] + (t[a..a + m] + t[a + m..]);
  }

  /** damerau_levenshtein_restricted: the result is the cost of a cheapest script without edited swaps. */
  method Restricted(k: Rules, source: Bytes, target: Bytes) returns (r: real)
    requires k.Valid() && !k.far
    ensures Cheapest(k, source, target, r)
    decreases if |target| > |source| then 1 else 0
  {
    hide Cheapest, Times;
    if |target| > |source| {
      r := Restricted(k.Exchanged(), target, source);
      Undone(k.Exchanged(), target, source, r);
      assert k.Exchanged().Exchanged() == k;
      return;
    }
    var a, n, m := Trim(source, target);
    ghost var s, t := source[a..a + n], target[a..a + m];
    if n == 0 {
      assert s == [] && |t| == m;
      r := Times(m, k.ci);
      FromNothing(k, t);
    } else if m == 0 {
      assert t == [] && |s| == n;
      r := Times(n, k.cd);
      ToNothing(k, s);
    } else {
      r := FillRows(k, source[a..a + n], target[a..a + m]);
    }
    CommonEnds(k, source, target, a, n, m, r);
  }

  // ----- edited transpositions

  /** i is the 1-based position of the last c in s, or 0. */
  ghost predicate LastAt(s: Bytes, c: Byte, i: nat) {
    && i <= |s|
    && (i > 0 ==> s[i - 1] == c)
    && (forall h :: i <= h < |s| ==> s[h] != c)
  }

  /** The value the code stores for a cell; `corner` belongs to the last occurrences i and j. */
  function FarCell(k: Rules, s: Bytes, x: Byte, t: Bytes, y: Byte, up: real, left: real, diag: real,
                   i: nat, j: nat, corner: real): real
  {
    var r := Plain(k, x, y, up, left, diag);
    if i > 0 && j > 0 then Least(r, corner + (|s| - i) as real + (|t| - j) as real + k.ct) else r
  }

  lemma FarUpper(k: Rules, s: Bytes, x: Byte, t: Bytes, y: Byte, i: nat, j: nat, corner: real) returns (es: seq<Edit>)
    requires k.far && i <= |s| && j <= |t| && LastAt(s, y, i) && LastAt(t, x, j) && i > 0 && j > 0
    requires Cheapest(k, s[..i - 1], t[..j - 1], corner)
    ensures Costs(k, es, s + [x], t + [y], corner + (|s| - i) as real + (|t| - j) as real + k.ct)
  {
    hide Turns, Total, LastAt;
    var fs :| Costs(k, fs, s[..i - 1], t[..j - 1], corner);
    var e := Swap(|s| - i, t[j..]);
    SwapsAround(k, s, x, t, y, i, j);
    Append(k, fs, s[..i - 1], t[..j - 1], e, [y] + s[i..] + [x], [x] + t[j..] + [y]);
    es := fs + [e];
  }

  lemma SwapsAround(k: Rules, s: Bytes, x: Byte, t: Bytes, y: Byte, i: nat, j: nat)
    requires k.far && i <= |s| && j <= |t| && LastAt(s, y, i) && LastAt(t, x, j) && i > 0 && j > 0
    ensures Fits(k, Swap(|s| - i, t[j..]), [y] + s[i..] + [x], [x] + t[j..] + [y])
    ensures s + [x] == s[..i - 1] + ([y] + s[i..] + [x]) && t + [y] == t[..j - 1] + ([x] + t[j..] + [y])
  {
    assert s == s[..i - 1] + [s[i - 1]] + s[i..];
    assert t == t[..j - 1] + [t[j - 1]] + t[j..];
  }

  lemma LastOccurs(s: Bytes, c: Byte, i: nat, p: Bytes, w: Bytes)
    requires i <= |s| && LastAt(s, c, i) && s == p + ([c] + w)
    ensures |p| < i && s[..i - 1] == p + s[|p|..i - 1]
    ensures |w| == |s| - i + |s[|p|..i - 1]|
    ensures c !in w ==> i == |p| + 1
  {
    assert s[|p|] == c;
    if i > |p| + 1 { assert s[i - 1] == w[i - |p| - 2]; }
  }

  lemma BothScaled(n: nat, c: real, m: nat, d: real)
    requires 0.0 <= c <= 1.0 && 0.0 <= d <= 1.0
    ensures Times(n, c) + Times(m, d) <= n as real + m as real
  {
    hide Times;
    Scaled(n, c);
    Scaled(m, d);
  }

  lemma CheapReplace(k: Rules, a: Bytes, b: Bytes)
    requires k.Tame() && k.far
    ensures Turns(k, Dels(|a|) + Inss(b), a, b)
    ensures Total(k, Dels(|a|) + Inss(b)) <= |a| as real + |b| as real
  {
    hide Turns, Total, Times;
    Replace(k, a, b);
    BothScaled(|a|, k.cd, |b|, k.ci);
  }

  /** Moving a swap to the last occurrences pays for itself. */
  lemma MovedSwap(k: Rules, fs: seq<Edit>, s': Bytes, t': Bytes, a: Bytes, b: Bytes, corner: real)
    requires k.Tame() && k.far && Turns(k, fs, s', t') && Cheapest(k, s' + a, t' + b, corner)
    ensures corner <= Total(k, fs) + |a| as real + |b| as real
  {
    hide Turns, Total;
    CheapReplace(k, a, b);
    Join(k, fs, s', t', Dels(|a|) + Inss(b), a, b);
    assert corner <= Total(k, fs + (Dels(|a|) + Inss(b)));
  }

  lemma FarLower(k: Rules, es: seq<Edit>, s: Bytes, x: Byte, t: Bytes, y: Byte, up: real, left: real, diag: real,
                 i: nat, j: nat, corner: real)
    requires k.Valid() && k.far && (k.tight || k.Tame())
    requires Turns(k, es, s + [x], t + [y]) && Neighbours(k, s, x, t, y, up, left, diag)
    requires i <= |s| && j <= |t| && LastAt(s, y, i) && LastAt(t, x, j)
    requires i > 0 && j > 0 ==> Cheapest(k, s[..i - 1], t[..j - 1], corner)
    ensures FarCell(k, s, x, t, y, up, left, diag, i, j, corner) <= Total(k, es)
  {
    hide Turns, Total, LastAt, Cheapest, Neighbours, Plain;
    NonEmptyScript(k, es, s, x, t + [y]);
    if !Last(es).Swap? {
      Unswapped(k, es, s, x, t, y, up, left, diag);
    } else {
      FarSwapLower(k, es, s, x, t, y, i, j, corner);
    }
  }

  lemma SwapAtEnd(k: Rules, es: seq<Edit>, s: Bytes, x: Byte, t: Bytes, y: Byte)
    returns (fs: seq<Edit>, s': Bytes, w: Bytes, t': Bytes)
    requires Turns(k, es, s + [x], t + [y]) && es != [] && Last(es).Swap?
    ensures s == s' + ([y] + w) && t == t' + ([x] + Last(es).fill) && |w| == Last(es).skip
    ensures Turns(k, fs, s', t') && Total(k, es) == Total(k, fs) + Cost(k, Last(es))
    ensures k.tight ==> y !in w && x !in Last(es).fill
  {
    hide Turns, Total;
    var e, u, v := Last(es), [], [];
    fs, s', u, t', v := SplitLast(k, es, s + [x], t + [y]);
    var p, q;
    p, w, q := SwapParts(k, e, u, v);
    assert [p] + (w + [q]) == ([p] + w) + [q] && [q] + (e.fill + [p]) == ([q] + e.fill) + [p];
    Behind(s, x, s', [p] + w, q);
    Behind(t, y, t', [q] + e.fill, p);
  }

  lemma NotCheaper(k: Rules, s: Bytes, t: Bytes, r: real, es: seq<Edit>)
    requires Cheapest(k, s, t, r) && Turns(k, es, s, t)
    ensures r <= Total(k, es)
  {
  }

  lemma FarSwapLower(k: Rules, es: seq<Edit>, s: Bytes, x: Byte, t: Bytes, y: Byte, i: nat, j: nat, corner: real)
    requires k.Valid() && k.far && (k.tight || k.Tame())
    requires Turns(k, es, s + [x], t + [y]) && es != [] && Last(es).Swap?
    requires i <= |s| && j <= |t| && LastAt(s, y, i) && LastAt(t, x, j)
    requires i > 0 && j > 0 ==> Cheapest(k, s[..i - 1], t[..j - 1], corner)
    ensures i > 0 && j > 0 && corner + (|s| - i) as real + (|t| - j) as real + k.ct <= Total(k, es)
  {
    hide Turns, Total, LastAt, Cheapest;
    var e := Last(es);
    var fs, s', w, t' := SwapAtEnd(k, es, s, x, t, y);
    LastOccurs(s, y, i, s', w);
    LastOccurs(t, x, j, t', e.fill);
    if k.tight {
      assert s[..i - 1] == s' && t[..j - 1] == t';
      NotCheaper(k, s', t', corner, fs);
    } else {
      MovedSwap(k, fs, s', t', s[|s'|..i - 1], t[|t'|..j - 1], corner);
    }
  }

  /** A cell computed from cheapest neighbours and last occurrences is cheapest. */
  lemma FarStep(k: Rules, s: Bytes, x: Byte, t: Bytes, y: Byte, up: real, left: real, diag: real,
                i: nat, j: nat, corner: real)
    requires k.Valid() && k.far && (k.tight || k.Tame()) && Neighbours(k, s, x, t, y, up, left, diag)
    requires i <= |s| && j <= |t| && LastAt(s, y, i) && LastAt(t, x, j)
    requires i > 0 && j > 0 ==> Cheapest(k, s[..i - 1], t[..j - 1], corner)
    ensures Cheapest(k, s + [x], t + [y], FarCell(k, s, x, t, y, up, left, diag, i, j, corner))
  {
    hide Neighbours, Turns, Total, LastAt, Plain;
    var es := PlainScripts(k, s, x, t, y, up, left, diag);
    var r := FarCell(k, s, x, t, y, up, left, diag, i, j, corner);
    if i > 0 && j > 0 {
      var fs := FarUpper(k, s, x, t, y, i, j, corner);
      assert Costs(k, fs, s + [x], t + [y], corner + (|s| - i) as real + (|t| - j) as real + k.ct);
    }
    forall es | Turns(k, es, s + [x], t + [y]) ensures r <= Total(k, es) {
      FarLower(k, es, s, x, t, y, up, left, diag, i, j, corner);
    }
  }

  /** A matrix cell is right: the distance with tight swaps, and with all swaps when insertions and deletions are no
      dearer than editing inside a swap. */
  ghost predicate Right(k: Rules, s: Bytes, t: Bytes, r: real) {
    Cheapest(k.Tight(), s, t, r) && (k.Tame() ==> Cheapest(k, s, t, r))
  }

  ghost predicate Matrix(k: Rules, s: Bytes, t: Bytes, c: array2<real>, i: nat, j: nat)
    requires i <= |s| && j <= |t| && c.Length0 == |s| + 1 && c.Length1 == |t| + 1
    reads c
  {
    && (forall a, b :: 0 <= a < i && 0 <= b <= |t| ==> Right(k, s[..a], t[..b], c[a, b]))
    && (forall b :: 0 <= b <= j ==> Right(k, s[..i], t[..b], c[i, b]))
    && (forall a :: i < a <= |s| ==> Right(k, s[..a], t[..0], c[a, 0]))
  }

  lemma FarCellRight(k: Rules, s: Bytes, t: Bytes, i: nat, j: nat, up: real, left: real, diag: real,
                     i': nat, j': nat, corner: real)
    requires k.Valid() && k.far && 0 < i <= |s| && 0 < j <= |t| && i' < i && j' < j
    requires LastAt(s[..i - 1], t[j - 1], i') && LastAt(t[..j - 1], s[i - 1], j')
    requires Right(k, s[..i - 1], t[..j], up) && Right(k, s[..i], t[..j - 1], left)
    requires Right(k, s[..i - 1], t[..j - 1], diag)
    requires i' > 0 && j' > 0 ==> Right(k, s[..i' - 1], t[..j' - 1], corner)
    ensures Right(k, s[..i], t[..j],
                  FarCell(k, s[..i - 1], s[i - 1], t[..j - 1], t[j - 1], up, left, diag, i', j', corner))
  {
    hide Cheapest, LastAt, FarCell;
    PrefixGrows(s, i);
    PrefixGrows(t, j);
    if i' > 0 && j' > 0 {
      assert s[..i - 1][..i' - 1] == s[..i' - 1] && t[..j - 1][..j' - 1] == t[..j' - 1];
    }
    FarStepRight(k, s[..i - 1], s[i - 1], t[..j - 1], t[j - 1], up, left, diag, i', j', corner);
  }

  lemma FarStepRight(k: Rules, s: Bytes, x: Byte, t: Bytes, y: Byte, up: real, left: real, diag: real,
                     i: nat, j: nat, corner: real)
    requires k.Valid() && k.far && i <= |s| && j <= |t| && LastAt(s, y, i) && LastAt(t, x, j)
    requires Right(k, s, t + [y], up) && Right(k, s + [x], t, left) && Right(k, s, t, diag)
    requires i > 0 && j > 0 ==> Right(k, s[..i - 1], t[..j - 1], corner)
    ensures Right(k, s + [x], t + [y], FarCell(k, s, x, t, y, up, left, diag, i, j, corner))
  {
    hide Cheapest, LastAt;
    FarStep(k.Tight(), s, x, t, y, up, left, diag, i, j, corner);
    if k.Tame() {
      FarStep(k, s, x, t, y, up, left, diag, i, j, corner);
    }
  }

  /** The body of the inner loop: cell (i, j) from its neighbours and the last occurrences. */
  method SetFarCell(k: Rules, p: Bytes, s: Bytes, c: array2<real>, i: nat, j: nat, i': nat, j': nat)
    requires 0 < i <= |p| && 0 < j <= |s| && c.Length0 == |p| + 1 && c.Length1 == |s| + 1
    requires i' < i && j' < j
    modifies c
    ensures forall a, b :: 0 <= a <= |p| && 0 <= b <= |s| && (a, b) != (i, j) ==> c[a, b] == old(c[a, b])
    ensures c[i, j] == FarCell(k.Exchanged(), p[..i - 1], p[i - 1], s[..j - 1], s[j - 1],
                               old(c[i - 1, j]), old(c[i, j - 1]), old(c[i - 1, j - 1]), i', j',
                               if i' > 0 && j' > 0 then old(c[i' - 1, j' - 1]) else 0.0)
  {
    var d := if p[i - 1] == s[j - 1] then 0.0 else k.cs;
    c[i, j] := Least(c[i - 1, j] + k.ci, c[i, j - 1] + k.cd);
    c[i, j] := Least(c[i, j], c[i - 1, j - 1] + d);
    if i' > 0 && j' > 0 {
      c[i, j] := Least(c[i, j], c[i' - 1, j' - 1] + (i - i') as real - 1.0 + (j - j') as real - 1.0 + k.ct);
    }
  }

  ghost predicate LastTable(cp: seq<nat>, s: Bytes) {
    |cp| == 256 && forall c: Byte :: Entry(cp, s, c)
  }

  ghost predicate Entry(cp: seq<nat>, s: Bytes, c: Byte)
    requires |cp| == 256
  {
    cp[c] <= |s| && LastAt(s, c, cp[c])
  }

  lemma LastGrows(s: Bytes, x: Byte, c: Byte, i: nat)
    requires i <= |s| && LastAt(s, c, i)
    ensures LastAt(s + [x], c, if x == c then |s| + 1 else i)
  {
  }

  /** One row of the matrix: CS is the last j with target byte equal to the row's source byte. */
  method FillFarRow(k: Rules, p: Bytes, s: Bytes, c: array2<real>, i: nat, cp: seq<nat>)
    requires k.Valid() && k.far && 0 < i <= |p| && c.Length0 == |p| + 1 && c.Length1 == |s| + 1
    requires LastTable(cp, p[..i - 1])
    requires Matrix(k.Exchanged(), p, s, c, i, 0)
    modifies c
    ensures Matrix(k.Exchanged(), p, s, c, i, |s|)
  {
    hide FarCell, LastAt, Right;
    var cs: nat := 0;
    LastNowhere(s[..0], p[i - 1]);
    for j := 1 to |s| + 1
      invariant Matrix(k.Exchanged(), p, s, c, i, j - 1)
      invariant cs < j && LastAt(s[..j - 1], p[i - 1], cs)
    {
      assert Entry(cp, p[..i - 1], s[j - 1]);
      var i' := cp[s[j - 1]];
      FarCellRight(k.Exchanged(), p, s, i, j, c[i - 1, j], c[i, j - 1], c[i - 1, j - 1], i', cs,
                   if i' > 0 && cs > 0 then c[i' - 1, cs - 1] else 0.0);
      SetFarCell(k, p, s, c, i, j, i', cs);
      LastGrows(s[..j - 1], s[j - 1], p[i - 1], cs);
      PrefixGrows(s, j);
      if p[i - 1] == s[j - 1] {
        cs := j;
      }
    }
  }

  lemma LastNowhere(s: Bytes, c: Byte)
    requires s == []
    ensures LastAt(s, c, 0)
  {
  }

  lemma NextRow(k: Rules, p: Bytes, s: Bytes, c: array2<real>, i: nat)
    requires 0 < i <= |p| && c.Length0 == |p| + 1 && c.Length1 == |s| + 1
    requires Matrix(k, p, s, c, i - 1, |s|)
    ensures Matrix(k, p, s, c, i, 0)
  {
    hide Right;
  }

  /** The borders of the matrix; consuming p costs ci, consuming s costs cd. */
  method Borders(k: Rules, p: Bytes, s: Bytes) returns (c: array2<real>)
    ensures fresh(c) && c.Length0 == |p| + 1 && c.Length1 == |s| + 1
    ensures Matrix(k.Exchanged(), p, s, c, 0, |s|)
  {
    hide Cheapest, Times;
    var e := k.Exchanged();
    c := new real[|p| + 1, |s| + 1];
    for i := 0 to |p| + 1
      invariant forall a :: 0 <= a < i ==> Right(e, p[..a], s[..0], c[a, 0])
    {
      c[i, 0] := Times(i, k.ci);
      ToNothing(e, p[..i]);
      ToNothing(e.Tight(), p[..i]);
      assert s[..0] == [] && |p[..i]| == i;
    }
    for j := 0 to |s| + 1
      invariant forall a :: 0 <= a <= |p| ==> Right(e, p[..a], s[..0], c[a, 0])
      invariant forall b :: 0 <= b < j ==> Right(e, p[..0], s[..b], c[0, b])
    {
      c[0, j] := Times(j, k.cd);
      FromNothing(e, s[..j]);
      FromNothing(e.Tight(), s[..j]);
      assert p[..0] == [] && |s[..j]| == j;
    }
  }

  /** damerau_levenshtein_unrestricted: the distance with tight swaps whatever edits cost, insertion and deletion costs
      exchanged; with all swaps when insertions and deletions cost at most 1. */
  method Unrestricted(k: Rules, p: Bytes, s: Bytes) returns (r: real)
    requires k.Valid() && k.far
    ensures Right(k.Exchanged(), p, s, r)
  {
    hide Right, Matrix, LastTable;
    var c := Borders(k, p, s);
    var cp: seq<nat> := seq(256, _ => 0);
    EmptyTable(cp, p[..0]);
    for i := 1 to |p| + 1
      invariant |cp| == 256 && LastTable(cp, p[..i - 1])
      invariant Matrix(k.Exchanged(), p, s, c, i - 1, |s|)
    {
      NextRow(k.Exchanged(), p, s, c, i);
      FillFarRow(k, p, s, c, i, cp);
      TableGrows(cp, p, i);
      cp := cp[p[i - 1] := i];
    }
    r := c[|p|, |s|];
    FullMatrix(k.Exchanged(), p, s, c);
  }

  lemma EmptyTable(cp: seq<nat>, s: Bytes)
    requires |cp| == 256 && s == [] && forall c: Byte :: cp[c] == 0
    ensures LastTable(cp, s)
  {
  }

  lemma TableGrows(cp: seq<nat>, p: Bytes, i: nat)
    requires 0 < i <= |p| && LastTable(cp, p[..i - 1])
    ensures LastTable(cp[p[i - 1] := i], p[..i])
  {
    hide LastAt;
    PrefixGrows(p, i);
    var cp', s' := cp[p[i - 1] := i], p[..i];
    forall c: Byte ensures Entry(cp', s', c) {
      assert Entry(cp, p[..i - 1], c);
      LastGrows(p[..i - 1], p[i - 1], c, cp[c]);
    }
  }

  lemma FullMatrix(k: Rules, p: Bytes, s: Bytes, c: array2<real>)
    requires c.Length0 == |p| + 1 && c.Length1 == |s| + 1
    requires Matrix(k, p, s, c, |p|, |s|)
    ensures Right(k, p, s, c[|p|, |s|])
  {
    assert p[..|p|] == p && s[..|s|] == s;
  }

  lemma RightUndone(k: Rules, s: Bytes, t: Bytes, r: real)
    requires Right(k, s, t, r)
    ensures Right(k.Exchanged(), t, s, r)
  {
    hide Cheapest;
    Undone(k.Tight(), s, t, r);
    if k.Tame() { Undone(k, s, t, r); }
  }

  /** damerau_levenshtein_distance. When one string is left without bytes after trimming, the result is the
      other's length whatever insertions and deletions cost; otherwise insertions cost cd and deletions ci. */
  method Distance(k: Rules, source: Bytes, target: Bytes) returns (r: real)
    requires k.Valid() && k.far && !k.tight
    ensures var (s, t) := Residue(source, target);
            if s == [] || t == [] then r == |s| as real + |t| as real
            else Right(k.Exchanged(), s, t, r) && (k.Tame() ==> Cheapest(k.Exchanged(), source, target, r))
    ensures k.ci == 1.0 && k.cd == 1.0 ==> Cheapest(k, source, target, r)
  {
    hide Cheapest;
    var a, n, m := Trim(source, target);
    ghost var s, t := source[a..a + n], target[a..a + m];
    if n == 0 {
      assert s == [] && |t| == m;
      r := m as real;
      FromNothing(k, t);
    } else if m == 0 {
      assert t == [] && |s| == n;
      r := n as real;
      ToNothing(k, s);
    } else {
      if m <= n {
        r := Unrestricted(k, source[a..a + n], target[a..a + m]);
      } else {
        r := Unrestricted(k.Exchanged(), target[a..a + m], source[a..a + n]);
        assert k.Exchanged().Exchanged() == k;
        RightUndone(k, t, s, r);
      }
      if k.Tame() {
        CommonEnds(k.Exchanged(), source, target, a, n, m, r);
      }
    }
    if k.ci == 1.0 && k.cd == 1.0 {
      assert k.Exchanged() == k;
      CommonEnds(k, source, target, a, n, m, r);
    }
  }

  /** Answering with the length of the one-sided rest is right for all strings exactly under unit costs. */
  lemma UnitCostsNeeded(k: Rules)
    requires k.Valid() && k.far
    ensures k.ci == 1.0 && k.cd == 1.0 <==>
            forall s: Bytes :: Cheapest(k, [], s, |s| as real) && Cheapest(k, s, [], |s| as real)
  {
    hide Cheapest;
    forall s: Bytes ensures Cheapest(k, [], s, Times(|s|, k.ci)) && Cheapest(k, s, [], Times(|s|, k.cd)) {
      FromNothing(k, s);
      ToNothing(k, s);
    }
    if forall s: Bytes :: Cheapest(k, [], s, |s| as real) && Cheapest(k, s, [], |s| as real) {
      var s: Bytes := [49];
      CheapestUnique(k, [], s, Times(|s|, k.ci), |s| as real);
      CheapestUnique(k, s, [], Times(|s|, k.cd), |s| as real);
    }
  }

  // ----- when tight swaps are enough

  lemma {:induction false} LastPlace(s: Bytes, c: Byte) returns (i: nat)
    ensures i <= |s| && LastAt(s, c, i)
  {
    if s == [] {
      i := 0;
    } else if Last(s) == c {
      i := |s|;
    } else {
      i := LastPlace(s[..|s| - 1], c);
    }
  }

  /** Any two strings have a distance with tight swaps, which is the one with all swaps if these are dear enough. */
  lemma {:induction false} RightExists(k: Rules, s: Bytes, t: Bytes) returns (r: real)
    requires k.Valid() && k.far
    ensures Right(k, s, t, r)
    decreases |s| + |t|
  {
    hide Cheapest, Times, FarCell, LastAt;
    if s == [] {
      FromNothing(k, t);
      FromNothing(k.Tight(), t);
      r := Times(|t|, k.ci);
    } else if t == [] {
      ToNothing(k, s);
      ToNothing(k.Tight(), s);
      r := Times(|s|, k.cd);
    } else {
      var s', x, t', y := s[..|s| - 1], Last(s), t[..|t| - 1], Last(t);
      assert s == s' + [x] && t == t' + [y];
      var up := RightExists(k, s', t);
      var left := RightExists(k, s, t');
      var diag := RightExists(k, s', t');
      var i := LastPlace(s', y);
      var j := LastPlace(t', x);
      var corner := 0.0;
      if i > 0 && j > 0 {
        corner := RightExists(k, s'[..i - 1], t'[..j - 1]);
      }
      FarStepRight(k, s', x, t', y, up, left, diag, i, j, corner);
      r := FarCell(k, s', x, t', y, up, left, diag, i, j, corner);
    }
  }

  /** All bytes but the last are the same. */
  ghost predicate Repeats(s: Bytes, c: Byte) {
    forall i :: 0 <= i < |s| - 1 ==> s[i] == c
  }

  lemma Spread(a: int, b: int, c: real)
    ensures (a + b) as real * c == a as real * c + b as real * c
  {
  }

  /** One edit deletes as many bytes more than it inserts as it pays for. */
  lemma TightEdit(k: Rules, e: Edit, u: Bytes, v: Bytes, c: Byte)
    requires k.Valid() && k.tight && Fits(k, e, u, v) && Repeats(u, c)
    ensures (|u| - |v|) as real * k.cd <= Cost(k, e)
  {
    if e.Swap? && |u| > 2 {
      SecondInside(u);
      assert false;
    }
  }

  lemma SecondInside(u: Bytes)
    requires |u| > 2
    ensures u[1] in u[1..|u| - 1]
  {
    assert u[1..|u| - 1][0] == u[1];
  }

  /** In a string of equal bytes tight swaps skip nothing, so each byte that goes has to be deleted. */
  lemma {:induction false} TightBound(k: Rules, es: seq<Edit>, s: Bytes, t: Bytes, c: Byte)
    requires k.Valid() && k.tight && Repeats(s, c) && Turns(k, es, s, t)
    ensures (|s| - |t|) as real * k.cd <= Total(k, es)
  {
    hide Fits, Cost, Takes, Gives;
    if es != [] {
      var u, s', v, t' := SplitFirst(k, es, s, t);
      TightEdit(k, es[0], u, v, c);
      TightBound(k, es[1..], s', t', c);
      Spread(|u| - |v|, |s'| - |t'|, k.cd);
    }
  }

  /** a a ... a b */
  function RunOf(n: nat): Bytes { [97] + seq(n, _ => 97) + [98] }

  lemma LooseSwap(k: Rules, n: nat)
    requires k.far && !k.tight
    ensures Costs(k, [Swap(n, [])], RunOf(n), [98, 97], k.ct + n as real)
  {
    var e := Swap(n, []);
    assert [98] + [] + [97] == [98, 97];
    assert Fits(k, e, RunOf(n), [98, 97]);
    Single(k, e, RunOf(n), [98, 97]);
  }

  lemma TightCost(k: Rules, n: nat, r: real)
    requires k.Valid() && k.tight && Cheapest(k, RunOf(n), [98, 97], r)
    ensures n as real * k.cd <= r
  {
    hide Turns, Total;
    var fs :| Costs(k, fs, RunOf(n), [98, 97], r);
    TightBound(k, fs, RunOf(n), [98, 97], 97);
  }

  /** Dear deletions: a loose swap takes out a run of bytes cheaper than any tight script. */
  lemma DearDeletions(k: Rules) returns (s: Bytes, t: Bytes, r: real)
    requires k.Valid() && k.far && !k.tight && 1.0 < k.cd
    ensures Cheapest(k.Tight(), s, t, r) && !Cheapest(k, s, t, r)
  {
    hide Turns, Total, RunOf, Right;
    var gain := k.cd - 1.0;
    Outgrows(k.ct, gain);
    var n: nat := (k.ct / gain).Floor + 1;
    s, t := RunOf(n), [98, 97];
    r := TightDistance(k, s, t);
    LooseSwap(k, n);
    TightCost(k.Tight(), n, r);
    Gained(n, k.cd);
  }

  lemma TightDistance(k: Rules, s: Bytes, t: Bytes) returns (r: real)
    requires k.Valid() && k.far
    ensures Cheapest(k.Tight(), s, t, r)
  {
    hide Cheapest;
    r := RightExists(k, s, t);
  }

  lemma Gained(n: nat, c: real)
    ensures n as real * (c - 1.0) == n as real * c - n as real
  {
  }

  lemma Outgrows(a: real, b: real)
    requires 0.0 <= a && 0.0 < b
    ensures (a / b).Floor >= 0 && a < ((a / b).Floor + 1) as real * b
  {
    var q := a / b;
    assert q * b == a;
    assert q < (q.Floor + 1) as real;
  }

  /** What the code computes is the distance with all swaps, for all strings, exactly when neither insertions nor
      deletions cost more than editing inside a swap. */
  lemma TightExact(k: Rules)
    requires k.Valid() && k.far && !k.tight
    ensures (forall s, t, r :: Cheapest(k.Tight(), s, t, r) ==> Cheapest(k, s, t, r)) <==> k.ci <= 1.0 && k.cd <= 1.0
  {
    hide Cheapest;
    if k.ci <= 1.0 && k.cd <= 1.0 {
      forall s, t, r | Cheapest(k.Tight(), s, t, r) ensures Cheapest(k, s, t, r) {
        var q := RightExists(k, s, t);
        CheapestUnique(k.Tight(), s, t, r, q);
      }
    } else if k.cd > 1.0 {
      var s, t, r := DearDeletions(k);
    } else {
      var s, t, r := DearDeletions(k.Exchanged());
      Undone(k.Exchanged().Tight(), s, t, r);
      assert k.Exchanged().Tight().Exchanged() == k.Tight() && k.Exchanged().Exchanged() == k;
      if Cheapest(k, t, s, r) { Undone(k, t, s, r); }
    }
  }
}
