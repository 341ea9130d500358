/**
 LoftBuckets on its BumpAllocator: any number of threads allocate and free. A pop or push on a bucket is one step,
 as module MpmcStack justifies; each load, test and compare-and-swap of bump_alloc() and each growing of the spans
 is one step as well.
 */
module LoftAllocator {
  import opened Basics
  import opened LoftSizes

  type Addr = nat

  type Tid = nat

  const HEADER := 64

  const HUGEPAGE := 0x20_0000

  /** A mapped region: everything from the header up to `offset` has been carved into blocks. */
  datatype Span = Span(start: Addr, offset: nat, size: nat) {
    function End(): Addr { start + size }

    function Mark(): Addr { start + offset }
  }

  datatype Thread =
    | Idle
    | Popping(bucket: nat)
    | AtSpan(bucket: nat, i: nat)
    | Loaded(bucket: nat, i: nat, mark: nat)
    | Swapping(bucket: nat, i: nat, mark: nat)
    | Growing(bucket: nat)
    | Leaving(block: Addr)
    | Pushing(block: Addr)

  /** Where a block is: with the caller that holds it, or in transit on its way in or out of the allocator, or in a
      bucket. */
  datatype Place = Held(caller: Tid) | Transit(t: Tid) | Listed(bucket: nat)

  datatype State = State(spans: seq<Span>, buckets: map<nat, seq<Addr>>, threads: map<Tid, Thread>,
                         sizes: map<Addr, nat>, place: map<Addr, Place>)

  datatype Step =
    | Alloc(t: Tid, size: nat)
    | Free(t: Tid, block: Addr)
    | Pass(t: Tid, block: Addr, to: Tid)
    | Run(t: Tid)
    | GrowLast(t: Tid, size: nat)
    | GrowNew(t: Tid, start: Addr, size: nat)
    | GrowNothing(t: Tid)

  function ThreadOf(c: State, t: Tid): Thread { if t in c.threads then c.threads[t] else Idle }

  function Bucket(c: State, b: nat): seq<Addr> { if b in c.buckets then c.buckets[b] else [] }

  predicate Usable(bucket: nat) { bucket < BUCKETS && (bucket < POWER2_BUCKETS ==> bucket <= 30) }

  /** What mmap() and mremap() promise: the new region meets no other mapping. */
  predicate Fresh(spans: seq<Span>, except: int, start: Addr, size: nat) {
    forall i :: 0 <= i < |spans| && i != except ==> start + size <= spans[i].start || spans[i].End() <= start
  }

  predicate Enabled(c: State, s: Step) {
    match s
    case Alloc(t, size) => ThreadOf(c, t).Idle? && size <= LARGEST
    case Free(t, block) => ThreadOf(c, t).Idle? && block in c.place && c.place[block] == Held(t) && block in c.sizes
    case Pass(t, block, _) => block in c.place && c.place[block] == Held(t)
    case Run(t) =>
      var th := ThreadOf(c, t);
      !th.Idle? && !th.Growing?
      && (th.Popping? ==> Usable(th.bucket))
      && (th.Loaded? || th.Swapping? ==> th.i < |c.spans| && Usable(th.bucket))
      && (th.Leaving? ==> th.block in c.place)
      && (th.Pushing? ==> th.block in c.place && th.block in c.sizes)
    case GrowLast(t, size) =>
      && ThreadOf(c, t).Growing? && c.spans != [] && size % HUGEPAGE == 0 && Last(c.spans).size <= size
      && Fresh(c.spans, |c.spans| - 1, Last(c.spans).start, size)
    case GrowNew(t, start, size) =>
      ThreadOf(c, t).Growing? && start % HUGEPAGE == 0 && 0 < start && size % HUGEPAGE == 0 && 0 < size
        && Fresh(c.spans, -1, start, size)
    case GrowNothing(t) => ThreadOf(c, t).Growing?
  }

  function Goes(c: State, t: Tid, th: Thread): State { c.(threads := c.threads[t := th]) }

  /** One step of a thread inside do_alloc() or do_free(). */
  function ApplyRun(c: State, t: Tid): State
    requires Enabled(c, Run(t))
  {
    match ThreadOf(c, t)
    case Popping(b) =>
      var list := Bucket(c, b);
      if list == [] then Goes(c, t, AtSpan(b, 0))
      else Goes(c.(buckets := c.buckets[b := list[1..]], place := c.place[list[0] := Transit(t)]), t, Leaving(list[0]))
    case AtSpan(b, i) => Goes(c, t, if i < |c.spans| then Loaded(b, i, c.spans[i].offset) else Growing(b))
    case Loaded(b, i, mark) =>
      Goes(c, t, if mark + BucketSize(b) > c.spans[i].size then AtSpan(b, i + 1) else Swapping(b, i, mark))
    case Swapping(b, i, mark) =>
      var span := c.spans[i];
      if span.offset == mark then
        var block := span.start + mark;
        Goes(c.(spans := c.spans[i := span.(offset := mark + BucketSize(b))],
                sizes := c.sizes[block := BucketSize(b)], place := c.place[block := Transit(t)]), t, Leaving(block))
      else Goes(c, t, Loaded(b, i, span.offset))
    case Leaving(block) => Goes(c.(place := c.place[block := Held(t)]), t, Idle)
    case Pushing(block) =>
      var b := BucketIndex(c.sizes[block]);
      Goes(c.(buckets := c.buckets[b := [block] + Bucket(c, b)], place := c.place[block := Listed(b)]), t, Idle)
    case Growing(b) => c
    case Idle => c
  }

  function Apply(c: State, s: Step): State
    requires Enabled(c, s)
  {
    match s
    case Alloc(t, size) => Goes(c, t, Popping(BucketIndex(size)))
    case Free(t, block) => Goes(c.(place := c.place[block := Transit(t)]), t, Pushing(block))
    case Pass(_, block, to) => c.(place := c.place[block := Held(to)])
    case Run(t) => ApplyRun(c, t)
    case GrowLast(t, size) =>
      var n := |c.spans| - 1;
      Goes(c.(spans := c.spans[n := c.spans[n].(size := size)]), t, AtSpan(ThreadOf(c, t).bucket, 0))
    case GrowNew(t, start, size) =>
      Goes(c.(spans := c.spans + [Span(start, HEADER, size)]), t, AtSpan(ThreadOf(c, t).bucket, 0))
    case GrowNothing(t) => Goes(c, t, AtSpan(ThreadOf(c, t).bucket, 0))
  }

  predicate Init(c: State) {
    c == State([], map[], map[], map[], map[])
  }

  ghost predicate IsRun(c: State, steps: seq<Step>)
    decreases |steps|
  {
    steps == [] || (Enabled(c, steps[0]) && IsRun(Apply(c, steps[0]), steps[1..]))
  }

  ghost function Final(c: State, steps: seq<Step>): State
    requires IsRun(c, steps)
    decreases |steps|
  {
    if steps == [] then c else Final(Apply(c, steps[0]), steps[1..])
  }

  // ----- memory: spans and carved blocks

  predicate SpanOk(s: Span) {
    && 0 < s.start && s.start % 64 == 0 && s.offset % 64 == 0 && HEADER <= s.offset <= s.size
  }

  ghost predicate SpansOk(spans: seq<Span>) {
    && (forall i :: 0 <= i < |spans| ==> SpanOk(spans[i]))
    && (forall i, j :: 0 <= i < j < |spans| ==> spans[i].End() <= spans[j].start || spans[j].End() <= spans[i].start)
  }

  /** A block of n bytes lies in the carved part of span s. */
  predicate Inside(s: Span, a: Addr, n: nat) {
    s.start + HEADER <= a && a + n <= s.Mark()
  }

  ghost predicate Carved(spans: seq<Span>, a: Addr, n: nat) {
    a % 64 == 0 && exists i :: 0 <= i < |spans| && Inside(spans[i], a, n)
  }

  /** Block sizes are what bucket_index() and bucket_size() round to. */
  ghost predicate SizeOk(n: nat) {
    64 <= n <= LARGEST && n % 64 == 0 && Rounded(n) == n
  }

  ghost predicate Memory(c: State) {
    && SpansOk(c.spans)
    && (forall a :: a in c.sizes ==> SizeOk(c.sizes[a]) && Carved(c.spans, a, c.sizes[a]))
    && (forall a, b :: a in c.sizes && b in c.sizes && a < b ==> a + c.sizes[a] <= b)
  }

  // ----- places

  ghost predicate ThreadOk(c: State, t: Tid) {
    match ThreadOf(c, t)
    case Idle => true
    case Popping(b) => FromSize(b)
    case AtSpan(b, i) => FromSize(b)
    case Loaded(b, i, mark) => FromSize(b) && i < |c.spans| && mark <= c.spans[i].offset
    case Swapping(b, i, mark) =>
      FromSize(b) && i < |c.spans| && mark <= c.spans[i].offset && mark + BucketSize(b) <= c.spans[i].size
    case Growing(b) => FromSize(b)
    case Leaving(block) => block in c.place && c.place[block] == Transit(t)
    case Pushing(block) => block in c.place && c.place[block] == Transit(t)
  }

  /** A bucket that serves some request: its blocks have the rounded size. */
  predicate FromSize(b: nat) {
    Usable(b) && 64 <= BucketSize(b) <= LARGEST && BucketSize(b) % 64 == 0
    && Rounded(BucketSize(b)) == BucketSize(b) && BucketIndex(BucketSize(b)) == b
  }

  predicate InTransit(th: Thread, a: Addr) {
    (th.Leaving? || th.Pushing?) && th.block == a
  }

  /** Every carved block is in exactly one place, and is really there. */
  ghost predicate Places(c: State) {
    && c.place.Keys == c.sizes.Keys
    && (forall a :: a in c.place && c.place[a].Transit? ==> InTransit(ThreadOf(c, c.place[a].t), a))
    && (forall a :: a in c.place && c.place[a].Listed? ==> a in Bucket(c, c.place[a].bucket))
    && (forall b, a :: b in c.buckets && a in c.buckets[b] ==>
          a in c.place && c.place[a] == Listed(b) && BucketIndex(c.sizes[a]) == b)
    && (forall b :: b in c.buckets ==> Distinct(c.buckets[b]))
  }

  ghost predicate Inv(c: State) {
    Memory(c) && Places(c) && forall t :: ThreadOk(c, t)
  }

  lemma RequestBucket(n: nat)
    requires n <= LARGEST
    ensures FromSize(BucketIndex(n))
  {
    IndexInRange(n);
    RoundedUp(n);
    FixedPoint(n);
  }

  // ----- memory is kept

  /** Spans only grow: at their end, by appending, and by moving the offset up. */
  ghost predicate SpansGrow(ss: seq<Span>, tt: seq<Span>) {
    && |ss| <= |tt|
    && forall i :: 0 <= i < |ss| ==>
      tt[i].start == ss[i].start && ss[i].offset <= tt[i].offset && ss[i].size <= tt[i].size
  }

  lemma StillCarved(ss: seq<Span>, tt: seq<Span>, a: Addr, n: nat)
    requires SpansGrow(ss, tt) && Carved(ss, a, n)
    ensures Carved(tt, a, n)
  {
    var i :| 0 <= i < |ss| && Inside(ss[i], a, n);
    assert Inside(tt[i], a, n);
  }

  lemma SameBlocks(c: State, d: State)
    requires Memory(c) && d.sizes == c.sizes && SpansOk(d.spans) && SpansGrow(c.spans, d.spans)
    ensures Memory(d)
  {
    hide SpansOk, SpansGrow, Carved, SizeOk;
    forall a | a in d.sizes ensures Carved(d.spans, a, d.sizes[a]) {
      StillCarved(c.spans, d.spans, a, c.sizes[a]);
    }
  }

  /** A block in the carved part of one span lies apart from what is carved next off another or the same span. */
  lemma ApartFromNew(spans: seq<Span>, i: nat, a: Addr, n: nat, m: nat)
    requires SpansOk(spans) && i < |spans| && Carved(spans, a, n) && 0 < n
    requires 0 < m && spans[i].Mark() + m <= spans[i].End()
    ensures a + n <= spans[i].Mark() || spans[i].Mark() + m <= a
  {
    var j :| 0 <= j < |spans| && Inside(spans[j], a, n);
    assert SpanOk(spans[i]) && SpanOk(spans[j]);
    assert i < j || j < i || i == j;
  }

  lemma CarveMemory(c: State, i: nat, n: nat, d: State)
    requires Memory(c) && i < |c.spans| && SizeOk(n) && c.spans[i].offset + n <= c.spans[i].size
    requires d.spans == c.spans[i := c.spans[i].(offset := c.spans[i].offset + n)]
    requires d.sizes == c.sizes[c.spans[i].Mark() := n]
    ensures Memory(d) && SpansGrow(c.spans, d.spans) && c.spans[i].Mark() !in c.sizes
  {
    hide SizeOk, Carved, SpansOk, SpansGrow, SpanOk;
    var block := c.spans[i].Mark();
    SizePositive(n);
    SpanFilled(c.spans, i, n);
    forall a | a in c.sizes
      ensures a != block && Carved(d.spans, a, c.sizes[a]) && (a + c.sizes[a] <= block || block + n <= a)
    {
      SizePositive(c.sizes[a]);
      ApartFromNew(c.spans, i, a, c.sizes[a], n);
      StillCarved(c.spans, d.spans, a, c.sizes[a]);
    }
    NewlyCarved(d.spans, i, block, n);
  }

  lemma SpanFilled(spans: seq<Span>, i: nat, n: nat)
    requires SpansOk(spans) && i < |spans| && n % 64 == 0 && spans[i].offset + n <= spans[i].size
    ensures var tt := spans[i := spans[i].(offset := spans[i].offset + n)];
            SpansOk(tt) && SpansGrow(spans, tt) && SpanOk(tt[i]) && SpanOk(spans[i])
    ensures spans[i].start + HEADER <= spans[i].Mark()
  {
    assert SpanOk(spans[i]);
  }

  lemma SizePositive(n: nat)
    requires SizeOk(n)
    ensures 0 < n && n % 64 == 0
  {
  }

  lemma NewlyCarved(spans: seq<Span>, i: nat, a: Addr, n: nat)
    requires i < |spans| && SpanOk(spans[i]) && spans[i].start + HEADER <= a && a + n == spans[i].Mark() && n % 64 == 0
    ensures Carved(spans, a, n)
  {
    assert Inside(spans[i], a, n);
  }

  lemma GrowSpans(c: State, s: Step)
    requires Memory(c) && Enabled(c, s) && (s.GrowLast? || s.GrowNew?)
    ensures Memory(Apply(c, s)) && SpansGrow(c.spans, Apply(c, s).spans)
  {
    hide Carved, SizeOk;
    var d := Apply(c, s);
    if s.GrowLast? {
      assert SpanOk(Last(c.spans));
    } else {
      HugeAligned(s.start);
      HugeSize(s.size);
    }
    SameBlocks(c, d);
  }

  lemma HugeAligned(n: nat)
    requires n % HUGEPAGE == 0
    ensures n % 64 == 0
  {
    assert n == 64 * (32768 * (n / HUGEPAGE));
  }

  lemma HugeSize(n: nat)
    requires n % HUGEPAGE == 0 && 0 < n
    ensures HEADER <= n
  {
  }

  lemma RunMemory(c: State, t: Tid)
    requires Memory(c) && ThreadOk(c, t) && Enabled(c, Run(t))
    ensures Memory(ApplyRun(c, t)) && SpansGrow(c.spans, ApplyRun(c, t).spans)
  {
    hide Carved, SizeOk, SpansOk;
    var th, d := ThreadOf(c, t), ApplyRun(c, t);
    if th.Swapping? && c.spans[th.i].offset == th.mark {
      BucketSizeOk(th.bucket);
      CarveMemory(c, th.i, BucketSize(th.bucket), d);
    } else {
      SameBlocks(c, d);
    }
  }

  lemma BucketSizeOk(b: nat)
    requires FromSize(b)
    ensures SizeOk(BucketSize(b))
  {
  }

  lemma StepMemory(c: State, s: Step)
    requires Inv(c) && Enabled(c, s)
    ensures Memory(Apply(c, s)) && SpansGrow(c.spans, Apply(c, s).spans)
  {
    hide Places, ThreadOk, Carved, SizeOk, SpansOk;
    match s
    case Run(t) => RunMemory(c, t);
    case GrowLast(_, _) => GrowSpans(c, s);
    case GrowNew(_, _, _) => GrowSpans(c, s);
    case Alloc(_, _) => SameBlocks(c, Apply(c, s));
    case Free(_, _) => SameBlocks(c, Apply(c, s));
    case Pass(_, _, _) => SameBlocks(c, Apply(c, s));
    case GrowNothing(_) => SameBlocks(c, Apply(c, s));
  }

  // ----- places are kept

  /** Places after block a, in transit with t, went somewhere else or nothing but thread states changed. */
  lemma QuietPlaces(c: State, d: State, t: Tid)
    requires Places(c) && d.place == c.place && d.sizes == c.sizes && d.buckets == c.buckets
    requires forall u :: u != t ==> ThreadOf(d, u) == ThreadOf(c, u)
    requires !ThreadOf(c, t).Leaving? && !ThreadOf(c, t).Pushing?
    ensures Places(d)
  {
    hide Distinct;
  }

  lemma FreePlaces(c: State, t: Tid, block: Addr)
    requires Places(c) && Enabled(c, Free(t, block))
    ensures Places(Apply(c, Free(t, block)))
  {
    hide Distinct;
  }

  lemma PassPlaces(c: State, t: Tid, block: Addr, to: Tid)
    requires Places(c) && Enabled(c, Pass(t, block, to))
    ensures Places(Apply(c, Pass(t, block, to)))
  {
    hide Distinct;
  }

  lemma LeavePlaces(c: State, t: Tid)
    requires Places(c) && ThreadOk(c, t) && Enabled(c, Run(t)) && ThreadOf(c, t).Leaving?
    ensures Places(ApplyRun(c, t))
  {
    hide Distinct;
  }

  lemma CarvePlaces(c: State, t: Tid, block: Addr, d: State, n: nat)
    requires Places(c) && block !in c.sizes && !ThreadOf(c, t).Leaving? && !ThreadOf(c, t).Pushing?
    requires d.threads == c.threads[t := Leaving(block)] && d.buckets == c.buckets
    requires d.place == c.place[block := Transit(t)] && d.sizes == c.sizes[block := n]
    ensures Places(d)
  {
    hide Distinct;
  }

  lemma PopPlaces(c: State, t: Tid)
    requires Places(c) && Enabled(c, Run(t)) && ThreadOf(c, t).Popping? && Bucket(c, ThreadOf(c, t).bucket) != []
    ensures Places(ApplyRun(c, t))
  {
    var b := ThreadOf(c, t).bucket;
    var d, list := ApplyRun(c, t), Bucket(c, b);
    TailDistinct(list);
    QuietBuckets(c, d, b, t, list[0]);
  }

  lemma TailDistinct(list: seq<Addr>)
    requires Distinct(list) && list != []
    ensures Distinct(list[1..]) && list[0] !in list[1..]
    ensures forall x :: x in list <==> x == list[0] || x in list[1..]
  {
  }

  /** Taking the head of a bucket. */
  lemma QuietBuckets(c: State, d: State, b: nat, t: Tid, a: Addr)
    requires Places(c) && b in c.buckets && c.buckets[b] != [] && a == c.buckets[b][0]
    requires Distinct(c.buckets[b][1..]) && a !in c.buckets[b][1..]
    requires forall x :: x in c.buckets[b] <==> x == a || x in c.buckets[b][1..]
    requires !ThreadOf(c, t).Leaving? && !ThreadOf(c, t).Pushing?
    requires d == Goes(c.(buckets := c.buckets[b := c.buckets[b][1..]], place := c.place[a := Transit(t)]),
                       t, Leaving(a))
    ensures Places(d)
  {
    hide Distinct;
  }

  lemma PushPlaces(c: State, t: Tid)
    requires Places(c) && ThreadOk(c, t) && Enabled(c, Run(t)) && ThreadOf(c, t).Pushing?
    ensures Places(ApplyRun(c, t))
  {
    var a := ThreadOf(c, t).block;
    var b := BucketIndex(c.sizes[a]);
    var d, list := ApplyRun(c, t), Bucket(c, b);
    assert a !in list;
    ConsDistinct(a, list);
    PutInBucket(c, d, b, t, a);
  }

  lemma ConsDistinct(a: Addr, list: seq<Addr>)
    requires Distinct(list) && a !in list
    ensures Distinct([a] + list)
    ensures forall x :: x in [a] + list <==> x == a || x in list
  {
  }

  lemma PutInBucket(c: State, d: State, b: nat, t: Tid, a: Addr)
    requires Places(c) && a in c.place && c.place[a] == Transit(t) && b == BucketIndex(c.sizes[a])
    requires Distinct([a] + Bucket(c, b))
    requires InTransit(ThreadOf(c, t), a)
    requires forall x :: x in [a] + Bucket(c, b) <==> x == a || x in Bucket(c, b)
    requires d == Goes(c.(buckets := c.buckets[b := [a] + Bucket(c, b)], place := c.place[a := Listed(b)]), t, Idle)
    ensures Places(d)
  {
    hide Distinct, BucketIndex;
  }

  lemma RunPlaces(c: State, t: Tid)
    requires Memory(c) && Places(c) && ThreadOk(c, t) && Enabled(c, Run(t))
    ensures Places(ApplyRun(c, t))
  {
    hide Memory, Places, BucketIndex;
    var th, d := ThreadOf(c, t), ApplyRun(c, t);
    match th
    case Popping(b) => if Bucket(c, b) != [] { PopPlaces(c, t); } else { QuietPlaces(c, d, t); }
    case Swapping(b, i, mark) =>
      if c.spans[i].offset == mark {
        BucketSizeOk(b);
        CarveMemory(c, i, BucketSize(b), d);
        CarvePlaces(c, t, c.spans[i].start + mark, d, BucketSize(b));
      } else {
        QuietPlaces(c, d, t);
      }
    case Leaving(_) => LeavePlaces(c, t);
    case Pushing(_) => PushPlaces(c, t);
    case AtSpan(_, _) => QuietPlaces(c, d, t);
    case Loaded(_, _, _) => QuietPlaces(c, d, t);
  }

  lemma StepPlaces(c: State, s: Step)
    requires Inv(c) && Enabled(c, s)
    ensures Places(Apply(c, s))
  {
    hide Memory, Places, BucketIndex, ApplyRun, ThreadOk;
    match s
    case Run(t) => assert ThreadOk(c, t); RunPlaces(c, t);
    case Free(t, block) => FreePlaces(c, t, block);
    case Pass(t, block, to) => PassPlaces(c, t, block, to);
    case Alloc(t, _) => QuietPlaces(c, Apply(c, s), t);
    case GrowLast(t, _) => QuietPlaces(c, Apply(c, s), t);
    case GrowNew(t, _, _) => QuietPlaces(c, Apply(c, s), t);
    case GrowNothing(t) => QuietPlaces(c, Apply(c, s), t);
  }

  // ----- threads are kept

  function Actor(s: Step): Tid {
    match s
    case Alloc(t, _) => t
    case Free(t, _) => t
    case Pass(t, _, _) => t
    case Run(t) => t
    case GrowLast(t, _) => t
    case GrowNew(t, _, _) => t
    case GrowNothing(t) => t
  }

  /** A step touches the place of no block that is in transit with another thread. */
  lemma OthersBlocks(c: State, s: Step, u: Tid, a: Addr)
    requires Inv(c) && Enabled(c, s) && u != Actor(s) && a in c.place && c.place[a] == Transit(u)
    ensures var d := Apply(c, s); a in d.place && d.place[a] == Transit(u)
  {
    hide BucketIndex, Carved, SizeOk, SpansOk, Distinct, FromSize;
    assert ThreadOk(c, Actor(s));
    if s.Run? && ThreadOf(c, s.t).Swapping? {
      var th := ThreadOf(c, s.t);
      if c.spans[th.i].offset == th.mark { NewBlock(c, s.t); }
    }
  }

  lemma NewBlock(c: State, t: Tid)
    requires Memory(c) && Places(c) && ThreadOk(c, t) && ThreadOf(c, t).Swapping?
    requires c.spans[ThreadOf(c, t).i].offset == ThreadOf(c, t).mark
    ensures c.spans[ThreadOf(c, t).i].start + ThreadOf(c, t).mark !in c.place
  {
    hide BucketIndex, Distinct;
    var th := ThreadOf(c, t);
    var n := BucketSize(th.bucket);
    BucketSizeOk(th.bucket);
    var span := c.spans[th.i];
    CarveMemory(c, th.i, n, c.(spans := c.spans[th.i := span.(offset := span.offset + n)],
                               sizes := c.sizes[span.Mark() := n]));
  }

  lemma OtherThreads(c: State, s: Step, u: Tid)
    requires Inv(c) && Enabled(c, s) && u != Actor(s)
    ensures ThreadOk(Apply(c, s), u)
  {
    hide Memory, Places, ThreadOk, Apply, Enabled;
    var d, th := Apply(c, s), ThreadOf(c, u);
    StepMemory(c, s);
    SameThread(c, s, u);
    assert ThreadOk(c, u);
    if th.Leaving? || th.Pushing? {
      OwnBlock(c, u);
      OthersBlocks(c, s, u, th.block);
    }
    KeptThread(c, d, u);
  }

  lemma SameThread(c: State, s: Step, u: Tid)
    requires Enabled(c, s) && u != Actor(s)
    ensures ThreadOf(Apply(c, s), u) == ThreadOf(c, u)
  {
    hide BucketIndex, BucketSize;
  }

  lemma OwnBlock(c: State, u: Tid)
    requires ThreadOk(c, u) && (ThreadOf(c, u).Leaving? || ThreadOf(c, u).Pushing?)
    ensures var a := ThreadOf(c, u).block; a in c.place && c.place[a] == Transit(u)
  {
  }

  lemma KeptThread(c: State, d: State, u: Tid)
    requires ThreadOk(c, u) && ThreadOf(d, u) == ThreadOf(c, u) && SpansGrow(c.spans, d.spans)
    requires var th := ThreadOf(c, u); th.Leaving? || th.Pushing? ==>
             th.block in d.place && d.place[th.block] == Transit(u)
    ensures ThreadOk(d, u)
  {
    hide FromSize;
  }

  lemma ActingThread(c: State, s: Step)
    requires Inv(c) && Enabled(c, s)
    ensures ThreadOk(Apply(c, s), Actor(s))
  {
    hide BucketIndex, Carved, SizeOk, SpansOk, Distinct, FromSize, Memory, Places, BucketSize;
    if s.Alloc? { RequestBucket(s.size); }
    assert ThreadOk(c, Actor(s));
  }

  lemma StepInv(c: State, s: Step)
    requires Inv(c) && Enabled(c, s)
    ensures Inv(Apply(c, s))
  {
    hide Memory, Places, ThreadOk, Apply, Enabled;
    StepMemory(c, s);
    StepPlaces(c, s);
    forall u ensures ThreadOk(Apply(c, s), u) {
      if u == Actor(s) { ActingThread(c, s); } else { OtherThreads(c, s, u); }
    }
  }

  /** A thread inside the allocator can always take its next step, within the spans. */
  lemma NeverStuck(c: State, t: Tid)
    requires Inv(c) && !ThreadOf(c, t).Idle? && !ThreadOf(c, t).Growing?
    ensures Enabled(c, Run(t))
  {
    hide Memory, BucketIndex, BucketSize;
    assert ThreadOk(c, t);
  }

  lemma {:induction false} RunInvariant(c: State, steps: seq<Step>)
    requires Inv(c) && IsRun(c, steps)
    ensures Inv(Final(c, steps))
    decreases |steps|
  {
    hide Inv;
    if steps != [] {
      StepInv(c, steps[0]);
      RunInvariant(Apply(c, steps[0]), steps[1..]);
    }
  }

  lemma InitInv(c: State)
    requires Init(c)
    ensures Inv(c)
  {
  }

  /** In every interleaving all blocks ever carved are disjoint, aligned to 64 bytes and inside their span. */
  lemma BlocksDisjoint(c: State, steps: seq<Step>, a: Addr, b: Addr)
    requires Init(c) && IsRun(c, steps)
    requires a in Final(c, steps).sizes && b in Final(c, steps).sizes && a != b
    ensures var d := Final(c, steps);
            && !Overlap(a, d.sizes[a], b, d.sizes[b])
            && a % 64 == 0
            && (exists i :: 0 <= i < |d.spans| && Inside(d.spans[i], a, d.sizes[a]) && SpanOk(d.spans[i]))
  {
    InitInv(c);
    RunInvariant(c, steps);
    var d := Final(c, steps);
    assert Carved(d.spans, a, d.sizes[a]);
    var i :| 0 <= i < |d.spans| && Inside(d.spans[i], a, d.sizes[a]);
    assert SpanOk(d.spans[i]);
  }

  /** In every interleaving each block is held by one caller, in transit in one thread, or in exactly one bucket, the
      one of its own size, and there exactly once. */
  lemma OnePlace(c: State, steps: seq<Step>, a: Addr)
    requires Init(c) && IsRun(c, steps) && a in Final(c, steps).sizes
    ensures var d := Final(c, steps);
            && a in d.place
            && (d.place[a].Transit? <==> exists t :: InTransit(ThreadOf(d, t), a))
            && (d.place[a].Listed? <==> exists b :: a in Bucket(d, b))
            && (forall t, u :: InTransit(ThreadOf(d, t), a) && InTransit(ThreadOf(d, u), a) ==> t == u)
            && (forall b :: a in Bucket(d, b) ==> b == BucketIndex(d.sizes[a]) && Distinct(Bucket(d, b)))
            && (forall t :: Enabled(d, Free(t, a)) <==> d.place[a] == Held(t) && ThreadOf(d, t).Idle?)
  {
    hide Inv, Distinct, BucketIndex;
    InitInv(c);
    RunInvariant(c, steps);
    TransitPlace(Final(c, steps), a);
    ListedPlace(Final(c, steps), a);
  }

  lemma TransitPlace(d: State, a: Addr)
    requires Inv(d) && a in d.sizes
    ensures a in d.place && (d.place[a].Transit? <==> exists t :: InTransit(ThreadOf(d, t), a))
    ensures forall t, u :: InTransit(ThreadOf(d, t), a) && InTransit(ThreadOf(d, u), a) ==> t == u
  {
    hide Memory, Distinct, BucketIndex, FromSize;
    forall t | InTransit(ThreadOf(d, t), a) ensures d.place[a] == Transit(t) {
      assert ThreadOk(d, t);
    }
  }

  lemma ListedPlace(d: State, a: Addr)
    requires Inv(d) && a in d.sizes
    ensures a in d.place && (d.place[a].Listed? <==> exists b :: a in Bucket(d, b))
    ensures forall b :: a in Bucket(d, b) ==> b == BucketIndex(d.sizes[a]) && Distinct(Bucket(d, b))
  {
    hide Memory, Distinct, BucketIndex, ThreadOk;
  }

  /** A caller that is handed a block of a bucket holds at least the bytes of its request, and can free it. */
  lemma HandedOut(n: nat)
    requires n <= LARGEST
    ensures Usable(BucketIndex(n)) && n <= BucketSize(BucketIndex(n))
    ensures BucketIndex(BucketSize(BucketIndex(n))) == BucketIndex(n)
  {
    RequestBucket(n);
    RoundedUp(n);
  }
}
