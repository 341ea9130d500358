/**
 What callers of the loft allocator get: blocks for the sizes they ask for, whatever other threads do, and an answer
 to every request.
 */
module LoftRequests {
  import opened Basics
  import opened LoftSizes
  import opened LoftAllocator

  /** The callers' own books: what each thread asked for last, and the request each held block was handed out for. */
  datatype Ledger = Ledger(wants: map<Tid, nat>, granted: map<Addr, nat>) {
    function Want(t: Tid): nat { if t in wants then wants[t] else 0 }
  }

  function Booked(c: State, s: Step, g: Ledger): Ledger {
    match s
    case Alloc(t, size) => g.(wants := g.wants[t := size])
    case Free(_, block) => g.(granted := g.granted - {block})
    case Run(t) =>
      (match ThreadOf(c, t)
       case Leaving(block) => g.(granted := g.granted[block := g.Want(t)])
       case _ => g)
    case _ => g
  }

  ghost function LedgerAfter(c: State, steps: seq<Step>, g: Ledger): Ledger
    requires IsRun(c, steps)
    decreases |steps|
  {
    if steps == [] then g else LedgerAfter(Apply(c, steps[0]), steps[1..], Booked(c, steps[0], g))
  }

  // ----- requests are kept in mind

  /** A thread inside do_alloc() serves its own request. */
  ghost predicate Serves(c: State, g: Ledger, t: Tid) {
    match ThreadOf(c, t)
    case Popping(b) => ForRequest(b, g.Want(t))
    case AtSpan(b, _) => ForRequest(b, g.Want(t))
    case Loaded(b, _, _) => ForRequest(b, g.Want(t))
    case Swapping(b, _, _) => ForRequest(b, g.Want(t))
    case Growing(b) => ForRequest(b, g.Want(t))
    case Leaving(block) => Granted(c, block, g.Want(t))
    case _ => true
  }

  ghost predicate ForRequest(b: nat, n: nat) {
    n <= LARGEST && b == BucketIndex(n)
  }

  ghost predicate Granted(c: State, a: Addr, n: nat) {
    n <= LARGEST && a in c.sizes && c.sizes[a] == Rounded(n)
  }

  ghost predicate HeldOk(c: State, g: Ledger) {
    forall a :: a in c.place && c.place[a].Held? ==> a in g.granted && Granted(c, a, g.granted[a])
  }

  ghost predicate LedgerOk(c: State, g: Ledger) {
    HeldOk(c, g) && forall t :: Serves(c, g, t)
  }

  /** Blocks keep their sizes. */
  lemma SizesStay(c: State, s: Step)
    requires Inv(c) && Enabled(c, s)
    ensures forall a :: a in c.sizes ==> a in Apply(c, s).sizes && Apply(c, s).sizes[a] == c.sizes[a]
  {
    hide BucketIndex, Carved, SizeOk, SpansOk, Distinct, FromSize;
    assert ThreadOk(c, Actor(s));
    if s.Run? && ThreadOf(c, s.t).Swapping? {
      var th := ThreadOf(c, s.t);
      if c.spans[th.i].offset == th.mark { NewBlock(c, s.t); }
    }
  }

  lemma OthersServe(c: State, s: Step, g: Ledger, u: Tid)
    requires Inv(c) && Enabled(c, s) && Serves(c, g, u) && u != Actor(s)
    ensures Serves(Apply(c, s), Booked(c, s, g), u)
  {
    hide Inv, Enabled, Apply, Rounded, BucketIndex;
    SizesStay(c, s);
    SameThread(c, s, u);
    SameWant(c, s, g, u);
  }

  lemma SameWant(c: State, s: Step, g: Ledger, u: Tid)
    requires u != Actor(s)
    ensures Booked(c, s, g).Want(u) == g.Want(u)
  {
  }

  /** A block popped from the bucket of a request has the size for it. */
  lemma PoppedSize(c: State, b: nat, n: nat)
    requires Inv(c) && ForRequest(b, n) && Bucket(c, b) != []
    ensures Granted(c, Bucket(c, b)[0], n)
  {
    hide BucketIndex, BucketSize, Carved, SpansOk, Distinct, ThreadOk;
    var a := Bucket(c, b)[0];
    assert a in c.buckets[b] && SizeOk(c.sizes[a]);
  }

  lemma ActorServes(c: State, s: Step, g: Ledger)
    requires Inv(c) && Enabled(c, s) && Serves(c, g, Actor(s))
    ensures Serves(Apply(c, s), Booked(c, s, g), Actor(s))
  {
    hide Inv, BucketIndex, BucketSize;
    var t := Actor(s);
    if s.Run? && ThreadOf(c, t).Popping? && Bucket(c, ThreadOf(c, t).bucket) != [] {
      PoppedSize(c, ThreadOf(c, t).bucket, g.Want(t));
    }
  }

  lemma HeldStep(c: State, s: Step, g: Ledger)
    requires Inv(c) && Enabled(c, s) && HeldOk(c, g) && Serves(c, g, Actor(s))
    ensures HeldOk(Apply(c, s), Booked(c, s, g))
  {
    hide Inv, BucketIndex, BucketSize, Rounded;
    SizesStay(c, s);
  }

  lemma LedgerStep(c: State, s: Step, g: Ledger)
    requires Inv(c) && Enabled(c, s) && LedgerOk(c, g)
    ensures LedgerOk(Apply(c, s), Booked(c, s, g))
  {
    hide Inv, Enabled, Apply, Booked, Serves, HeldOk;
    HeldStep(c, s, g);
    forall u ensures Serves(Apply(c, s), Booked(c, s, g), u) {
      if u == Actor(s) { ActorServes(c, s, g); } else { OthersServe(c, s, g, u); }
    }
  }

  lemma {:induction false} RunLedger(c: State, steps: seq<Step>, g: Ledger)
    requires Inv(c) && IsRun(c, steps) && LedgerOk(c, g)
    ensures Inv(Final(c, steps)) && LedgerOk(Final(c, steps), LedgerAfter(c, steps, g))
    decreases |steps|
  {
    hide Inv, LedgerOk;
    if steps != [] {
      StepInv(c, steps[0]);
      LedgerStep(c, steps[0], g);
      RunLedger(Apply(c, steps[0]), steps[1..], Booked(c, steps[0], g));
    }
  }

  lemma LedgerRun(c: State, steps: seq<Step>)
    requires Init(c) && IsRun(c, steps)
    ensures Inv(Final(c, steps)) && LedgerOk(Final(c, steps), LedgerAfter(c, steps, Ledger(map[], map[])))
  {
    InitInv(c);
    RunLedger(c, steps, Ledger(map[], map[]));
  }

  /** In every interleaving a block that a caller holds has room for the bytes it was asked for, and is of the least
      block size that has. */
  lemma RequestsFit(c: State, steps: seq<Step>, a: Addr)
    requires Init(c) && IsRun(c, steps) && a in Final(c, steps).place && Final(c, steps).place[a].Held?
    ensures var d, g := Final(c, steps), LedgerAfter(c, steps, Ledger(map[], map[]));
            && a in g.granted && a in d.sizes && g.granted[a] <= d.sizes[a] && IsBlockSize(d.sizes[a])
            && forall m: nat :: IsBlockSize(m) && g.granted[a] <= m ==> d.sizes[a] <= m
  {
    hide Inv, IsBlockSize, Rounded;
    LedgerRun(c, steps);
    LeastBlock(LedgerAfter(c, steps, Ledger(map[], map[])).granted[a]);
  }

  /** The bytes two callers asked for and hold never overlap. */
  lemma RequestsApart(c: State, steps: seq<Step>, a: Addr, b: Addr)
    requires Init(c) && IsRun(c, steps) && a != b
    requires a in Final(c, steps).place && Final(c, steps).place[a].Held?
    requires b in Final(c, steps).place && Final(c, steps).place[b].Held?
    ensures var g := LedgerAfter(c, steps, Ledger(map[], map[]));
            a in g.granted && b in g.granted && !Overlap(a, g.granted[a], b, g.granted[b])
  {
    hide Inv, IsBlockSize, Rounded;
    RequestsFit(c, steps, a);
    RequestsFit(c, steps, b);
    BlocksDisjoint(c, steps, a, b);
  }

  // ----- every request is answered

  /** One step in front of a run of thread t alone. */
  lemma Cons(c: State, t: Tid, s: Step, rest: seq<Step>) returns (steps: seq<Step>)
    requires Enabled(c, s) && IsRun(Apply(c, s), rest) && Actor(s) == t && forall r :: r in rest ==> Actor(r) == t
    ensures steps == [s] + rest && IsRun(c, steps) && Final(c, steps) == Final(Apply(c, s), rest)
    ensures forall r :: r in steps ==> Actor(r) == t
  {
    steps := [s] + rest;
    assert steps[1..] == rest;
  }

  /** Span i has room for a block of bucket b. */
  predicate Room(c: State, i: nat, b: nat)
    requires Usable(b)
  {
    i < |c.spans| && c.spans[i].offset + BucketSize(b) <= c.spans[i].size
  }

  /** A thread that scans the spans from i on, where span j has room, comes out with a block. */
  lemma {:induction false} ScanFinds(c: State, t: Tid, b: nat, i: nat, j: nat) returns (steps: seq<Step>, block: Addr)
    requires Inv(c) && ThreadOf(c, t) == AtSpan(b, i) && i <= j < |c.spans| && Usable(b) && Room(c, j, b)
    ensures IsRun(c, steps) && Inv(Final(c, steps)) && ThreadOf(Final(c, steps), t) == Leaving(block)
    ensures forall r :: r in steps ==> Actor(r) == t
    decreases j - i
  {
    hide Inv, BucketSize;
    assert t in c.threads;
    var d := Apply(c, Run(t));
    StepInv(c, Run(t));
    var e := Apply(d, Run(t));
    StepInv(d, Run(t));
    if c.spans[i].offset + BucketSize(b) > c.spans[i].size {
      assert ThreadOf(e, t) == AtSpan(b, i + 1) && e.spans == c.spans;
      steps, block := ScanFinds(e, t, b, i + 1, j);
    } else {
      var f := Apply(e, Run(t));
      StepInv(e, Run(t));
      block := c.spans[i].start + c.spans[i].offset;
      steps := Cons(e, t, Run(t), []);
    }
    steps := Cons(d, t, Run(t), steps);
    steps := Cons(c, t, Run(t), steps);
  }

  /** Where no span is left to try, the spans are grown. */
  lemma {:induction false} ScanEnds(c: State, t: Tid, b: nat, i: nat) returns (steps: seq<Step>)
    requires Inv(c) && ThreadOf(c, t) == AtSpan(b, i) && Usable(b)
    requires forall j :: i <= j < |c.spans| ==> !Room(c, j, b)
    ensures IsRun(c, steps) && Inv(Final(c, steps)) && ThreadOf(Final(c, steps), t) == Growing(b)
    ensures Final(c, steps).spans == c.spans && forall r :: r in steps ==> Actor(r) == t
    decreases |c.spans| - i
  {
    hide Inv, BucketSize;
    assert t in c.threads;
    var d := Apply(c, Run(t));
    StepInv(c, Run(t));
    steps := [];
    if i < |c.spans| {
      assert !Room(c, i, b);
      var e := Apply(d, Run(t));
      StepInv(d, Run(t));
      assert e.spans == c.spans && forall j :: i < j < |c.spans| ==> (Room(e, j, b) <==> Room(c, j, b));
      steps := ScanEnds(e, t, b, i + 1);
      steps := Cons(d, t, Run(t), steps);
    }
    steps := Cons(c, t, Run(t), steps);
  }

  /** The first multiple of the huge page size beyond all spans. */
  function Beyond(spans: seq<Span>): nat {
    if spans == [] then HUGEPAGE
    else Max(Beyond(spans[1..]), (spans[0].End() / HUGEPAGE + 1) * HUGEPAGE)
  }

  lemma {:induction false} BeyondFresh(spans: seq<Span>)
    ensures 0 < Beyond(spans) && Beyond(spans) % HUGEPAGE == 0
    ensures forall i :: 0 <= i < |spans| ==> spans[i].End() <= Beyond(spans)
  {
    if spans != [] {
      BeyondFresh(spans[1..]);
      assert forall i :: 0 < i < |spans| ==> spans[i] == spans[1..][i - 1];
    }
  }

  /** The run of a thread alone that grows the spans by a region large enough, and then finds a block. */
  lemma GrowAndFind(c: State, t: Tid, b: nat) returns (steps: seq<Step>, block: Addr)
    requires Inv(c) && ThreadOf(c, t) == Growing(b) && FromSize(b)
    ensures IsRun(c, steps) && Inv(Final(c, steps)) && ThreadOf(Final(c, steps), t) == Leaving(block)
    ensures forall r :: r in steps ==> Actor(r) == t
  {
    hide Inv, BucketSize, BucketIndex;
    var start, size := Beyond(c.spans), LARGEST + HUGEPAGE;
    BeyondFresh(c.spans);
    var grow := GrowNew(t, start, size);
    var d := Apply(c, grow);
    StepInv(c, grow);
    assert Room(d, |c.spans|, b);
    steps, block := ScanFinds(d, t, b, 0, |c.spans|);
    steps := Cons(c, t, grow, steps);
  }

  /** One run after another. */
  lemma {:induction false} Then(c: State, t: Tid, first: seq<Step>, second: seq<Step>) returns (steps: seq<Step>)
    requires IsRun(c, first) && IsRun(Final(c, first), second)
    requires forall r :: r in first || r in second ==> Actor(r) == t
    ensures IsRun(c, steps) && Final(c, steps) == Final(Final(c, first), second)
    ensures forall r :: r in steps ==> Actor(r) == t
    decreases |first|
  {
    hide Enabled, Apply;
    if first == [] {
      steps := second;
    } else {
      steps := Then(Apply(c, first[0]), t, first[1..], second);
      steps := Cons(c, t, first[0], steps);
    }
  }

  /** A thread that starts to scan the spans comes out with a block. */
  lemma ScanServes(c: State, t: Tid, b: nat) returns (steps: seq<Step>, block: Addr)
    requires Inv(c) && ThreadOf(c, t) == AtSpan(b, 0) && FromSize(b)
    ensures IsRun(c, steps) && Inv(Final(c, steps)) && ThreadOf(Final(c, steps), t) == Leaving(block)
    ensures forall r :: r in steps ==> Actor(r) == t
  {
    hide Inv, BucketSize, BucketIndex, IsRun, Final;
    if j: nat :| j < |c.spans| && Room(c, j, b) {
      steps, block := ScanFinds(c, t, b, 0, j);
    } else {
      var first := ScanEnds(c, t, b, 0);
      var second;
      second, block := GrowAndFind(Final(c, first), t, b);
      steps := Then(c, t, first, second);
    }
  }

  /** Every request can be answered: the thread alone, given memory when it asks for some, ends up holding a block. */
  lemma RequestServed(c: State, t: Tid) returns (steps: seq<Step>, block: Addr)
    requires Inv(c) && ThreadOf(c, t).Popping?
    ensures IsRun(c, steps) && forall r :: r in steps ==> Actor(r) == t
    ensures var d := Final(c, steps); ThreadOf(d, t).Idle? && block in d.place && d.place[block] == Held(t)
  {
    hide Inv, BucketSize, BucketIndex;
    var b := ThreadOf(c, t).bucket;
    PoppingUsable(c, t);
    var d := Apply(c, Run(t));
    StepInv(c, Run(t));
    if Bucket(c, b) == [] {
      steps, block := ScanServes(d, t, b);
    } else {
      steps, block := [], Bucket(c, b)[0];
    }
    var e := Final(d, steps);
    StepInvBlock(e, t);
    var last := Cons(e, t, Run(t), []);
    steps := Then(d, t, steps, last);
    steps := Cons(c, t, Run(t), steps);
  }

  lemma PoppingUsable(c: State, t: Tid)
    requires Inv(c) && ThreadOf(c, t).Popping?
    ensures FromSize(ThreadOf(c, t).bucket) && Usable(ThreadOf(c, t).bucket)
  {
    assert ThreadOk(c, t);
  }

  lemma StepInvBlock(c: State, t: Tid)
    requires Inv(c) && ThreadOf(c, t).Leaving?
    ensures ThreadOf(c, t).block in c.place
  {
    assert ThreadOk(c, t);
  }

  /** What one thread frees serves its next request of that block size. */
  lemma FreedIsReused(c: State, t: Tid, a: Addr, n: nat)
    requires Inv(c) && ThreadOf(c, t).Idle? && a in c.place && c.place[a] == Held(t) && a in c.sizes
    requires n <= c.sizes[a] && forall m: nat :: IsBlockSize(m) && n <= m ==> c.sizes[a] <= m
    ensures var steps := [Free(t, a), Run(t), Alloc(t, n), Run(t), Run(t)];
            && IsRun(c, steps)
            && var d := Final(c, steps); ThreadOf(d, t).Idle? && d.place == c.place && d.sizes == c.sizes
  {
    hide Inv, BucketSize, BucketIndex, Rounded, IsBlockSize;
    SameBucket(c, a, n);
    var steps := [Free(t, a), Run(t), Alloc(t, n), Run(t), Run(t)];
    var c1 := Apply(c, Free(t, a));
    var c2 := Apply(c1, Run(t));
    AllocReuses(c2, t, a, n);
    var s2 := Cons(c1, t, Run(t), [Alloc(t, n), Run(t), Run(t)]);
    var s1 := Cons(c, t, Free(t, a), s2);
    assert s1 == steps;
    assert c2.place[a := Held(t)] == c.place;
  }

  lemma AllocReuses(c: State, t: Tid, a: Addr, n: nat)
    requires ThreadOf(c, t).Idle? && a in c.place && n <= LARGEST && Usable(BucketIndex(n))
    requires Bucket(c, BucketIndex(n)) != [] && Bucket(c, BucketIndex(n))[0] == a
    ensures var steps := [Alloc(t, n), Run(t), Run(t)];
            && IsRun(c, steps) && (forall r :: r in steps ==> Actor(r) == t)
            && var d := Final(c, steps); ThreadOf(d, t).Idle? && d.place == c.place[a := Held(t)] && d.sizes == c.sizes
  {
    hide BucketSize, BucketIndex;
    var c3 := Apply(c, Alloc(t, n));
    var c4 := Apply(c3, Run(t));
    assert ThreadOf(c4, t) == Leaving(a);
    var s5 := Cons(c4, t, Run(t), []);
    var s4 := Cons(c3, t, Run(t), s5);
    var s3 := Cons(c, t, Alloc(t, n), s4);
    assert s3 == [Alloc(t, n), Run(t), Run(t)];
  }

  lemma SameBucket(c: State, a: Addr, n: nat)
    requires Inv(c) && a in c.sizes
    requires n <= c.sizes[a] && forall m: nat :: IsBlockSize(m) && n <= m ==> c.sizes[a] <= m
    ensures n <= LARGEST && BucketIndex(n) == BucketIndex(c.sizes[a]) && Usable(BucketIndex(n))
  {
    hide BucketSize, BucketIndex, IsBlockSize, Carved, SpansOk, Places, ThreadOk;
    assert SizeOk(c.sizes[a]);
    LeastBlock(n);
    LeastBlock(c.sizes[a]);
    RequestBucket(n);
    FixedPoint(n);
  }
}
