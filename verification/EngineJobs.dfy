/**
 The job queues of the audio engine: producers push jobs onto lock-free intrusive stacks, the engine
 thread pops a whole stack, reverses it in place, runs the jobs and pushes the chain onto the trash
 stack, and the owner thread pops the trash and deletes it. One step is one load, store or
 compare-and-swap of one thread; memory of deleted jobs may be handed out again.
 */
module EngineJobs {
  import opened Basics
  import opened LinkedLists

  type Tid = nat

  datatype Queue = AsyncJobs | ConstJobs

  /** Where a job can be once it was pushed; the first two are the shared stacks. */
  datatype Place = Queued(q: Queue) | Trash | Popped | Batch | Doomed

  /** add_job_mt() of one thread: push() and the wakeup it decides on. */
  datatype Producer =
    | Idle
    | Check(q: Queue, job: Addr)
    | Load(q: Queue, job: Addr)
    | Store(q: Queue, job: Addr, seen: Ptr)
    | Cas(q: Queue, job: Addr, seen: Ptr)
    | Wake(q: Queue)

  /** process_jobs() of the engine thread: pop_reversed(), the job loop, push_chain(). */
  datatype Engine =
    | Resting
    | PopLoad(q: Queue)
    | PopCas(q: Queue, seen: Ptr)
    | RevLoad(q: Queue, cur: Ptr, prev: Ptr)
    | RevStore(q: Queue, el: Addr, prev: Ptr, next: Ptr)
    | Run(q: Queue, first: Ptr, job: Ptr, last: Ptr)
    | TrashCheck(chain: Addr, end: Addr)
    | TrashLoad(chain: Addr, end: Addr)
    | TrashStore(chain: Addr, end: Addr, seen: Ptr)
    | TrashCas(chain: Addr, end: Addr, seen: Ptr)
    | OwnerWakeup

  /** ipc_dispatch() of the owner thread. */
  datatype Owner = Waiting | TakeLoad | TakeCas(seen: Ptr) | Delete(job: Ptr)

  datatype Log = Log(async: seq<nat>, consts: seq<nat>) {
    function Of(q: Queue): seq<nat> {
      match q case AsyncJobs => async case ConstJobs => consts
    }

    function Add(q: Queue, id: nat): Log {
      match q
      case AsyncJobs => Log(async + [id], consts)
      case ConstJobs => Log(async, consts + [id])
    }
  }

  /**
   The book keeps who lives at an address (jobs are numbered in order of creation) and what
   happened to every job.
   */
  datatype Book = Book(ids: map<Addr, nat>, issued: nat, pushed: Log, ran: Log, deleted: seq<nat>)

  /**
   `heads`, `next` and the three kinds of program counters are the real state. The book, `lists` (the
   nodes of every list) and `count` (how many jobs of the batch have run) are auxiliary: no step
   depends on them.
   */
  datatype State = State(
    heads: map<Place, Ptr>, next: Heap,
    producers: map<Tid, Producer>, engine: Engine, owner: Owner,
    book: Book, lists: Lists<Place>, count: nat)

  datatype Step =
    | NewJob(t: Tid, q: Queue, job: Addr)
    | Produce(t: Tid)
    | StartProcess(q: Queue)
    | Process
    | StartDispatch
    | Dispatch

  predicate Enabled(c: State, s: Step) {
    match s
    case NewJob(t, _, job) => t in c.producers && c.producers[t].Idle? && job !in c.next
    case Produce(t) => t in c.producers && !c.producers[t].Idle?
    case StartProcess(_) => c.engine.Resting?
    case Process => !c.engine.Resting?
    case StartDispatch => c.owner.Waiting?
    case Dispatch => !c.owner.Waiting?
  }

  function Head(c: State, p: Place): Ptr {
    if p in c.heads then c.heads[p] else Null
  }

  function Id(c: State, a: Addr): nat {
    if a in c.book.ids then c.book.ids[a] else 0
  }

  function Become(c: State, t: Tid, p: Producer): State {
    c.(producers := c.producers[t := p])
  }

  function ApplyProduce(c: State, t: Tid): State
    requires t in c.producers
  {
    match c.producers[t]
    case Idle => c
    case Check(q, job) => Become(c, t, if Get(c.next, job) == Null then Load(q, job) else Idle)
    case Load(q, job) => Become(c, t, Store(q, job, Head(c, Queued(q))))
    case Store(q, job, seen) => Become(c.(next := c.next[job := seen]), t, Cas(q, job, seen))
    case Cas(q, job, seen) =>
      if Head(c, Queued(q)) == seen then
        Become(c.(heads := c.heads[Queued(q) := Ref(job)],
                  book := c.book.(pushed := c.book.pushed.Add(q, Id(c, job))),
                  lists := c.lists[Queued(q) := [job] + At(c.lists, Queued(q))]),
               t, if seen == Null then Wake(q) else Idle)
      else Become(c, t, Store(q, job, Head(c, Queued(q))))
    case Wake(_) => Become(c, t, Idle)
  }

  function ApplyProcess(c: State): State {
    match c.engine
    case Resting => c
    case PopLoad(q) => c.(engine := PopCas(q, Head(c, Queued(q))))
    case PopCas(q, seen) =>
      if seen == Null then c.(engine := RevLoad(q, Null, Null))
      else if Head(c, Queued(q)) == seen then
        c.(heads := c.heads[Queued(q) := Null], engine := RevLoad(q, seen, Null),
           lists := c.lists[Popped := At(c.lists, Queued(q))][Queued(q) := []])
      else c.(engine := PopCas(q, Head(c, Queued(q))))
    case RevLoad(q, cur, prev) =>
      if cur == Null then c.(engine := Run(q, prev, prev, Null), count := 0)
      else c.(engine := RevStore(q, cur.addr, prev, Get(c.next, cur.addr)))
    case RevStore(q, el, prev, next) =>
      c.(next := c.next[el := prev], engine := RevLoad(q, next, Ref(el)),
         lists := ShiftedLists(c))
    case Run(q, first, job, last) =>
      if job.Ref? then
        c.(engine := Run(q, first, Get(c.next, job.addr), job),
           book := c.book.(ran := c.book.ran.Add(q, Id(c, job.addr))), count := c.count + 1)
      else if last.Ref? && first.Ref? then c.(engine := TrashCheck(first.addr, last.addr))
      else c.(engine := Resting)
    case TrashCheck(first, last) =>
      c.(engine := if Get(c.next, last) == Null then TrashLoad(first, last) else Resting)
    case TrashLoad(first, last) => c.(engine := TrashStore(first, last, Head(c, Trash)))
    case TrashStore(first, last, seen) =>
      c.(next := c.next[last := seen], engine := TrashCas(first, last, seen))
    case TrashCas(first, last, seen) =>
      if Head(c, Trash) == seen then
        c.(heads := c.heads[Trash := Ref(first)], engine := if seen == Null then OwnerWakeup else Resting,
           lists := c.lists[Trash := At(c.lists, Batch) + At(c.lists, Trash)][Batch := []], count := 0)
      else c.(engine := TrashStore(first, last, Head(c, Trash)))
    case OwnerWakeup => c.(engine := Resting)
  }

  function ShiftedLists(c: State): Lists<Place> {
    var s := At(c.lists, Popped);
    if s == [] then c.lists
    else c.lists[Popped := s[1..]][Batch := [s[0]] + At(c.lists, Batch)]
  }

  function ApplyDispatch(c: State): State {
    match c.owner
    case Waiting => c
    case TakeLoad => c.(owner := TakeCas(Head(c, Trash)))
    case TakeCas(seen) =>
      if seen == Null then c.(owner := Delete(Null))
      else if Head(c, Trash) == seen then
        c.(heads := c.heads[Trash := Null], owner := Delete(seen),
           lists := c.lists[Doomed := At(c.lists, Trash)][Trash := []])
      else c.(owner := TakeCas(Head(c, Trash)))
    case Delete(job) =>
      if job == Null then c.(owner := Waiting)
      else
        c.(owner := Delete(Get(c.next, job.addr)),
           next := c.next - {job.addr},
           book := c.book.(ids := c.book.ids - {job.addr}, deleted := c.book.deleted + [Id(c, job.addr)]),
           lists := c.lists[Doomed := Rest(At(c.lists, Doomed))])
  }

  function Rest(s: seq<Addr>): seq<Addr> {
    if s == [] then [] else s[1..]
  }

  function Apply(c: State, s: Step): State
    requires Enabled(c, s)
  {
    match s
    case NewJob(t, q, job) =>
      Become(c.(next := c.next[job := Null],
                book := c.book.(ids := c.book.ids[job := c.book.issued], issued := c.book.issued + 1)),
             t, Check(q, job))
    case Produce(t) => ApplyProduce(c, t)
    case StartProcess(q) => c.(engine := PopLoad(q))
    case Process => ApplyProcess(c)
    case StartDispatch => c.(owner := TakeLoad)
    case Dispatch => ApplyDispatch(c)
  }

  predicate Init(c: State) {
    && c.heads == map[] && c.next == map[]
    && (forall t :: t in c.producers ==> c.producers[t].Idle?)
    && c.engine == Resting && c.owner == Waiting
    && c.book == Book(map[], 0, Log([], []), Log([], []), [])
    && c.lists == map[] && c.count == 0
  }

  ghost predicate IsRun(c: State, steps: seq<Step>)
    decreases |steps|
  {
    steps == [] || (Enabled(c, steps[0]) && IsRun(Apply(c, steps[0]), steps[1..]))
  }

  ghost function Final(c: State, steps: seq<Step>): State
    requires IsRun(c, steps)
    decreases |steps|
  {
    if steps == [] then c else Final(Apply(c, steps[0]), steps[1..])
  }

  // ---------------------------------------------------------------------------------------------
  // The shape of the heap
  // ---------------------------------------------------------------------------------------------

  function Loose(e: Engine): set<Place> {
    if e.TrashStore? || e.TrashCas? then {Batch} else {}
  }

  predicate Carries(p: Producer, a: Addr) {
    match p
    case Check(_, job) => a == job
    case Load(_, job) => a == job
    case Store(_, job, _) => a == job
    case Cas(_, job, _) => a == job
    case _ => false
  }

  ghost predicate ProducerOk(c: State, p: Producer) {
    match p
    case Check(_, job) => Get(c.next, job) == Null
    case Cas(_, job, seen) => Get(c.next, job) == seen
    case _ => true
  }

  ghost predicate ProducersOk(c: State) {
    && (forall t :: t in c.producers ==> ProducerOk(c, c.producers[t]))
    && (forall t, a :: t in c.producers && Carries(c.producers[t], a) ==> a in c.next && !In(c.lists, a))
    && (forall t, u, a ::
          t in c.producers && u in c.producers && Carries(c.producers[t], a) && Carries(c.producers[u], a)
          ==> t == u)
  }

  ghost predicate EngineOk(c: State) {
    var popped, batch := At(c.lists, Popped), At(c.lists, Batch);
    match c.engine
    case Resting => popped == [] && batch == [] && c.count == 0
    case PopLoad(_) => popped == [] && batch == [] && c.count == 0
    case PopCas(_, _) => popped == [] && batch == [] && c.count == 0
    case RevLoad(_, cur, prev) => cur == First(popped) && prev == First(batch) && c.count == 0
    case RevStore(_, el, prev, next) =>
      && popped != [] && el == popped[0] && next == First(popped[1..])
      && prev == First(batch) && c.count == 0
    case Run(_, first, job, last) =>
      && popped == [] && c.count <= |batch| && first == First(batch)
      && job == First(batch[c.count..])
      && last == (if c.count == 0 then Null else Ref(batch[c.count - 1]))
    case TrashCas(first, last, seen) =>
      TrashOk(popped, batch, first, last, c.count) && Get(c.next, last) == seen
    case OwnerWakeup => popped == [] && batch == [] && c.count == 0
    case e => TrashOk(popped, batch, e.chain, e.end, c.count)
  }

  predicate TrashOk(popped: seq<Addr>, batch: seq<Addr>, first: Addr, last: Addr, count: nat) {
    popped == [] && batch != [] && first == batch[0] && last == Last(batch) && count == |batch|
  }

  ghost predicate OwnerOk(c: State) {
    var doomed := At(c.lists, Doomed);
    match c.owner
    case Delete(job) => job == First(doomed)
    case _ => doomed == []
  }

  ghost predicate HeadsOk(c: State) {
    && (forall q :: Head(c, Queued(q)) == First(At(c.lists, Queued(q))))
    && Head(c, Trash) == First(At(c.lists, Trash))
  }

  ghost predicate Shape(c: State) {
    && Ok(c.next, c.lists, Loose(c.engine))
    && HeadsOk(c)
    && ProducersOk(c)
    && EngineOk(c)
    && OwnerOk(c)
    && c.book.ids.Keys == c.next.Keys
  }

  lemma InitShape(c: State)
    requires Init(c)
    ensures Shape(c)
  {
  }

  /** A store outside all lists does not change what the engine's pointers mean. */
  lemma StoreKeepsEngine(c: State, d: State, a: Addr)
    requires EngineOk(c) && a !in At(c.lists, Batch)
    requires At(d.lists, Popped) == At(c.lists, Popped) && At(d.lists, Batch) == At(c.lists, Batch)
    requires d.engine == c.engine && d.count == c.count
    requires forall b :: b != a ==> Get(d.next, b) == Get(c.next, b)
    ensures EngineOk(d)
  {
  }

  lemma BecomeShape(c: State, t: Tid, p: Producer)
    requires Shape(c) && t in c.producers && ProducerOk(c, p)
    requires forall a :: Carries(p, a) ==> Carries(c.producers[t], a)
    ensures Shape(Become(c, t, p))
  {
    hide Ok;
    var d := Become(c, t, p);
    assert ProducersOk(d) by {
      forall u | u in d.producers ensures ProducerOk(d, d.producers[u]) {
        assert ProducerOk(c, if u == t then p else c.producers[u]);
      }
    }
  }

  /** A store to a node outside all lists touches only the producer that carries it. */
  lemma StoreProducers(c: State, d: State, t: Tid, job: Addr)
    requires ProducersOk(c) && t in c.producers && Carries(c.producers[t], job)
    requires d.lists == c.lists && d.producers.Keys == c.producers.Keys
    requires forall u :: u in c.producers && u != t ==> d.producers[u] == c.producers[u]
    requires ProducerOk(d, d.producers[t]) && forall a :: Carries(d.producers[t], a) ==> a == job
    requires job in d.next && forall a :: a != job && a in c.next ==> a in d.next && d.next[a] == c.next[a]
    ensures ProducersOk(d)
  {
    hide In;
    forall u | u in d.producers ensures ProducerOk(d, d.producers[u]) {
      if u != t {
        assert ProducerOk(c, c.producers[u]) && !Carries(c.producers[u], job);
        match c.producers[u]
        case Check(_, j) => assert Carries(c.producers[u], j);
        case Cas(_, j, _) => assert Carries(c.producers[u], j);
        case _ =>
      }
    }
  }

  lemma StoreShape(c: State, t: Tid)
    requires Shape(c) && t in c.producers && c.producers[t].Store?
    ensures Shape(ApplyProduce(c, t))
  {
    var d := ApplyProduce(c, t);
    var job := c.producers[t].job;
    assert Carries(c.producers[t], job) && job in c.next && !In(c.lists, job);
    StoreOutside(c.next, c.lists, Loose(c.engine), job, c.producers[t].seen);
    StoreProducers(c, d, t, job);
    assert job !in At(c.lists, Batch);
    StoreKeepsEngine(c, d, job);
    assert d.next.Keys == c.next.Keys;
  }

  lemma PushShape(c: State, t: Tid)
    requires Shape(c) && t in c.producers && c.producers[t].Cas?
    requires Head(c, Queued(c.producers[t].q)) == c.producers[t].seen
    ensures Shape(ApplyProduce(c, t))
  {
    hide Ok;
    var d := ApplyProduce(c, t);
    var job, q := c.producers[t].job, c.producers[t].q;
    assert Carries(c.producers[t], job) && ProducerOk(c, c.producers[t]);
    PushFront(c.next, c.lists, Loose(c.engine), Queued(q), job);
    forall p | p != Queued(q) ensures At(d.lists, p) == At(c.lists, p) {}
    PushProducers(c, t);
    assert HeadsOk(d);
    assert EngineOk(d) && OwnerOk(d);
  }

  lemma PushProducers(c: State, t: Tid)
    requires ProducersOk(c) && t in c.producers && c.producers[t].Cas?
    requires Head(c, Queued(c.producers[t].q)) == c.producers[t].seen
    ensures ProducersOk(ApplyProduce(c, t))
  {
    var d := ApplyProduce(c, t);
    var job, q := c.producers[t].job, c.producers[t].q;
    assert Carries(c.producers[t], job);
    forall u, a | u in d.producers && Carries(d.producers[u], a) ensures a in d.next && !In(d.lists, a) {
      assert Carries(c.producers[u], a) && u != t;
      assert a != job && !In(c.lists, a);
      forall p ensures a !in At(d.lists, p) {
        assert a !in At(c.lists, p);
      }
    }
    forall u | u in d.producers ensures ProducerOk(d, d.producers[u]) {
      assert ProducerOk(c, c.producers[u]);
    }
  }

  lemma ProduceShape(c: State, t: Tid)
    requires Shape(c) && t in c.producers
    ensures Shape(ApplyProduce(c, t))
  {
    assert ProducerOk(c, c.producers[t]);
    match c.producers[t]
    case Idle =>
    case Store(_, _, _) => StoreShape(c, t);
    case Cas(q, _, seen) =>
      if Head(c, Queued(q)) == seen { PushShape(c, t); } else { BecomeShape(c, t, ApplyProduce(c, t).producers[t]); }
    case _ => BecomeShape(c, t, ApplyProduce(c, t).producers[t]);
  }

  lemma NewJobProducers(c: State, t: Tid, q: Queue, job: Addr)
    requires ProducersOk(c) && Enabled(c, NewJob(t, q, job)) && !In(c.lists, job)
    ensures ProducersOk(Apply(c, NewJob(t, q, job)))
  {
    hide In;
    var d := Apply(c, NewJob(t, q, job));
    forall u | u in d.producers ensures ProducerOk(d, d.producers[u]) {
      if u != t { assert ProducerOk(c, c.producers[u]) && !Carries(c.producers[u], job); }
    }
  }

  lemma NewJobShape(c: State, t: Tid, q: Queue, job: Addr)
    requires Shape(c) && Enabled(c, NewJob(t, q, job))
    ensures Shape(Apply(c, NewJob(t, q, job)))
  {
    hide Ok;
    var d := Apply(c, NewJob(t, q, job));
    UnallocatedOutside(c.next, c.lists, Loose(c.engine), job);
    StoreOutside(c.next, c.lists, Loose(c.engine), job, Null);
    assert job !in At(c.lists, Batch);
    NewJobProducers(c, t, q, job);
    StoreKeepsEngine(c, d, job);
    assert d.book.ids.Keys == d.next.Keys;
  }

  /** Producers keep clear of everything the engine and the owner rearrange. */
  lemma ProducersApart(c: State, d: State)
    requires ProducersOk(c) && d.producers == c.producers
    requires forall a :: In(d.lists, a) ==> In(c.lists, a)
    requires forall a :: !In(c.lists, a) && a in c.next ==> a in d.next && d.next[a] == c.next[a]
    ensures ProducersOk(d)
  {
    forall u | u in d.producers ensures ProducerOk(d, d.producers[u]) {
      assert ProducerOk(c, c.producers[u]);
      match c.producers[u]
      case Check(_, job) => assert Carries(c.producers[u], job);
      case Cas(_, job, _) => assert Carries(c.producers[u], job);
      case _ =>
    }
  }

  /** A step of the engine that only changes its own program counter. */
  lemma EngineMoves(c: State, e: Engine, count: nat)
    requires Shape(c) && Loose(c.engine) <= Loose(e)
    requires EngineOk(c.(engine := e, count := count))
    ensures Shape(c.(engine := e, count := count))
  {
    ProducersApart(c, c.(engine := e, count := count));
  }

  lemma OwnerMoves(c: State, o: Owner)
    requires Shape(c) && OwnerOk(c.(owner := o))
    ensures Shape(c.(owner := o))
  {
    ProducersApart(c, c.(owner := o));
  }

  lemma PopAllShape(c: State)
    requires Shape(c) && c.engine.PopCas? && c.engine.seen != Null && Head(c, Queued(c.engine.q)) == c.engine.seen
    ensures Shape(ApplyProcess(c))
  {
    var d := ApplyProcess(c);
    var q := Queued(c.engine.q);
    MoveAll(c.next, c.lists, {}, q, Popped);
    forall p ensures At(d.lists, p) == if p == q then [] else if p == Popped then At(c.lists, q) else At(c.lists, p) {}
    forall a | In(d.lists, a) ensures In(c.lists, a) {
      var p :| a in At(d.lists, p);
      assert a in At(c.lists, if p == Popped then q else p);
    }
    ProducersApart(c, d);
  }

  lemma ShiftShape(c: State)
    requires Shape(c) && c.engine.RevStore?
    ensures Shape(ApplyProcess(c))
  {
    hide Ok, ProducersOk;
    var d := ApplyProcess(c);
    var s := At(c.lists, Popped);
    ListChain(c.next, c.lists, {}, Popped);
    ReadLink(c.next, s, 0);
    ShiftFront(c.next, c.lists, {}, Popped, Batch);
    assert At(d.lists, Popped) == s[1..] && At(d.lists, Batch) == [s[0]] + At(c.lists, Batch);
    assert ProducersOk(d) by {
      forall a | In(d.lists, a) ensures In(c.lists, a) {
        var p :| a in At(d.lists, p);
        assert a in At(c.lists, p) || (p == Batch && a in At(c.lists, Popped));
      }
      assert s[0] in At(c.lists, Popped);
      ProducersApart(c, d);
    }
    assert d.book.ids.Keys == d.next.Keys;
  }

  lemma RevLoadShape(c: State)
    requires Shape(c) && c.engine.RevLoad?
    ensures Shape(ApplyProcess(c))
  {
    var d := ApplyProcess(c);
    var s := At(c.lists, Popped);
    if s != [] { ReadLink(c.next, s, 0); }
    ProducersApart(c, d);
  }

  lemma RunFacts(c: State)
    requires Shape(c) && c.engine.Run?
    ensures c.engine.job.Ref? ==> c.count < |At(c.lists, Batch)| && c.engine.job.addr == At(c.lists, Batch)[c.count]
    ensures c.engine.job.Ref? ==> Get(c.next, c.engine.job.addr) == First(At(c.lists, Batch)[c.count + 1..])
    ensures c.engine.job.Null? ==> c.count == |At(c.lists, Batch)|
    ensures c.engine.job.Null? && c.engine.last.Null? ==> At(c.lists, Batch) == []
    ensures c.engine.first.Ref? <==> At(c.lists, Batch) != []
  {
    var s, k := At(c.lists, Batch), c.count;
    ListChain(c.next, c.lists, Loose(c.engine), Batch);
    if c.engine.job.Ref? {
      assert s[k..][0] == s[k];
      ReadLink(c.next, s, k);
    }
  }

  lemma BookShape(c: State, book: Book)
    requires Shape(c) && book.ids == c.book.ids
    ensures Shape(c.(book := book))
  {
    hide Ok;
    ProducersApart(c, c.(book := book));
  }

  lemma RunShape(c: State)
    requires Shape(c) && c.engine.Run?
    ensures Shape(ApplyProcess(c))
  {
    hide Ok, ProducersOk, HeadsOk, OwnerOk;
    var d := ApplyProcess(c);
    ListChain(c.next, c.lists, Loose(c.engine), Batch);
    RunFacts(c);
    EngineMoves(c, d.engine, d.count);
    BookShape(c.(engine := d.engine, count := d.count), d.book);
  }

  lemma TrashStoreShape(c: State)
    requires Shape(c) && c.engine.TrashStore?
    ensures Shape(ApplyProcess(c))
  {
    var d := ApplyProcess(c);
    var end := c.engine.end;
    StoreLast(c.next, c.lists, {Batch}, Batch, c.engine.seen);
    assert end in At(c.lists, Batch);
    ReadLink(c.next, At(c.lists, Batch), |At(c.lists, Batch)| - 1);
    assert In(c.lists, end);
    ProducersApart(c, d);
    assert d.book.ids.Keys == d.next.Keys;
  }

  lemma TrashPushShape(c: State)
    requires Shape(c) && c.engine.TrashCas? && Head(c, Trash) == c.engine.seen
    ensures Shape(ApplyProcess(c))
  {
    hide Ok, ProducersOk;
    var d := ApplyProcess(c);
    JoinFront(c.next, c.lists, {Batch}, Batch, Trash);
    assert {Batch} - {Batch} == Loose(d.engine);
    SplicedLists(c.lists, d.lists);
    ProducersApart(c, d);
  }

  lemma SplicedLists(ls: Lists<Place>, ms: Lists<Place>)
    requires ms == ls[Trash := At(ls, Batch) + At(ls, Trash)][Batch := []]
    ensures forall p ::
              At(ms, p) == if p == Batch then [] else if p == Trash then At(ls, Batch) + At(ls, Trash) else At(ls, p)
    ensures forall a :: In(ms, a) ==> In(ls, a)
  {
    forall a | In(ms, a) ensures In(ls, a) {
      var p :| a in At(ms, p);
      assert a in At(ls, p) || (p == Trash && a in At(ls, Batch));
    }
  }

  /** A batch always ends in a null link, so the assertion in push_chain() holds. */
  lemma TrashCheckShape(c: State)
    requires Shape(c) && c.engine.TrashCheck?
    ensures ApplyProcess(c).engine == TrashLoad(c.engine.chain, c.engine.end)
    ensures Shape(ApplyProcess(c))
  {
    ListChain(c.next, c.lists, Loose(c.engine), Batch);
    EngineMoves(c, TrashLoad(c.engine.chain, c.engine.end), c.count);
  }

  lemma PopShape(c: State)
    requires Shape(c) && (c.engine.PopLoad? || c.engine.PopCas? || c.engine.RevLoad? || c.engine.RevStore?)
    ensures Shape(ApplyProcess(c))
  {
    hide Ok, HeadsOk, ProducersOk, OwnerOk;
    var d := ApplyProcess(c);
    match c.engine
    case PopCas(q, seen) =>
      if seen != Null && Head(c, Queued(q)) == seen { PopAllShape(c); } else { EngineMoves(c, d.engine, c.count); }
    case RevLoad(_, _, _) => RevLoadShape(c);
    case RevStore(_, _, _, _) => ShiftShape(c);
    case PopLoad(_) => EngineMoves(c, d.engine, c.count);
  }

  lemma TrashingShape(c: State)
    requires Shape(c)
    requires c.engine.TrashCheck? || c.engine.TrashLoad? || c.engine.TrashStore? || c.engine.TrashCas?
             || c.engine.OwnerWakeup?
    ensures Shape(ApplyProcess(c))
  {
    hide Ok, HeadsOk, ProducersOk, OwnerOk;
    var d := ApplyProcess(c);
    match c.engine
    case TrashCheck(_, _) => TrashCheckShape(c);
    case TrashStore(_, _, _) => TrashStoreShape(c);
    case TrashCas(_, _, seen) =>
      if Head(c, Trash) == seen { TrashPushShape(c); } else { EngineMoves(c, d.engine, c.count); }
    case TrashLoad(_, _) => EngineMoves(c, d.engine, c.count);
    case OwnerWakeup => EngineMoves(c, d.engine, c.count);
  }

  lemma ProcessShape(c: State)
    requires Shape(c)
    ensures Shape(ApplyProcess(c))
  {
    hide Shape;
    if c.engine.Resting? {
      RestingShape(c);
    } else if c.engine.Run? {
      RunShape(c);
    } else if c.engine.PopLoad? || c.engine.PopCas? || c.engine.RevLoad? || c.engine.RevStore? {
      PopShape(c);
    } else {
      TrashingShape(c);
    }
  }

  lemma RestingShape(c: State)
    requires c.engine.Resting?
    ensures ApplyProcess(c) == c
  {
  }

  lemma TakeShape(c: State)
    requires Shape(c) && c.owner.TakeCas? && c.owner.seen != Null && Head(c, Trash) == c.owner.seen
    ensures Shape(ApplyDispatch(c))
  {
    hide Ok;
    var d := ApplyDispatch(c);
    MoveAll(c.next, c.lists, Loose(c.engine), Trash, Doomed);
    forall p
      ensures At(d.lists, p) == if p == Trash then [] else if p == Doomed then At(c.lists, Trash) else At(c.lists, p) {}
    forall a | In(d.lists, a) ensures In(c.lists, a) {
      var p :| a in At(d.lists, p);
      assert a in At(c.lists, if p == Doomed then Trash else p);
    }
    ProducersApart(c, d);
  }

  lemma DeleteHeap(c: State)
    requires Shape(c) && c.owner.Delete? && c.owner.job.Ref?
    ensures var s, d := At(c.lists, Doomed), ApplyDispatch(c);
            && s != [] && c.owner.job.addr == s[0] && s[0] in c.next
            && d.owner == Delete(First(s[1..])) && At(d.lists, Doomed) == s[1..]
            && (forall p :: p != Doomed ==> At(d.lists, p) == At(c.lists, p) && s[0] !in At(c.lists, p))
            && Ok(d.next, d.lists, Loose(c.engine))
  {
    var d := ApplyDispatch(c);
    var s := At(c.lists, Doomed);
    ReadLink(c.next, s, 0);
    DropFront(c.next, c.lists, Loose(c.engine), Doomed);
    FreeOutside(c.next, d.lists, Loose(c.engine), s[0]);
    assert s[0] in At(c.lists, Doomed);
  }

  lemma DeleteProducers(c: State, d: State, a: Addr)
    requires ProducersOk(c) && d.producers == c.producers && a in At(c.lists, Doomed) && d.next == c.next - {a}
    requires forall p, b :: b in At(d.lists, p) ==> b in At(c.lists, p)
    ensures ProducersOk(d)
  {
    forall b | In(d.lists, b) ensures In(c.lists, b) {
      var p :| b in At(d.lists, p);
      assert b in At(c.lists, p);
    }
    ProducersApart(c, d);
  }

  lemma DeleteShape(c: State)
    requires Shape(c) && c.owner.Delete? && c.owner.job.Ref?
    ensures Shape(ApplyDispatch(c))
  {
    hide Ok, ProducersOk, EngineOk, ProducerOk;
    var d := ApplyDispatch(c);
    var s := At(c.lists, Doomed);
    DeleteHeap(c);
    DeleteProducers(c, d, s[0]);
    StoreKeepsEngine(c, d, s[0]);
    assert HeadsOk(d);
    assert OwnerOk(d);
    assert d.book.ids.Keys == d.next.Keys;
  }

  lemma DispatchShape(c: State)
    requires Shape(c)
    ensures Shape(ApplyDispatch(c))
  {
    if c.owner.TakeCas? && c.owner.seen != Null && Head(c, Trash) == c.owner.seen {
      TakeShape(c);
    } else if c.owner.Delete? && c.owner.job.Ref? {
      DeleteShape(c);
    } else {
      var d := ApplyDispatch(c);
      assert d == c.(owner := d.owner);
      OwnerMoves(c, d.owner);
    }
  }

  lemma StepShape(c: State, s: Step)
    requires Shape(c) && Enabled(c, s)
    ensures Shape(Apply(c, s))
  {
    match s
    case NewJob(t, q, job) => NewJobShape(c, t, q, job);
    case Produce(t) => ProduceShape(c, t);
    case Process => ProcessShape(c);
    case Dispatch => DispatchShape(c);
    case StartProcess(q) => EngineMoves(c, PopLoad(q), c.count);
    case StartDispatch => OwnerMoves(c, TakeLoad);
  }

  // ---------------------------------------------------------------------------------------------
  // The fate of every job
  // ---------------------------------------------------------------------------------------------

  function Names(ids: map<Addr, nat>, s: seq<Addr>): (r: seq<nat>)
    ensures |r| == |s|
  {
    seq(|s|, i requires 0 <= i < |s| => if s[i] in ids then ids[s[i]] else 0)
  }

  /** Jobs of queue q that the engine has popped and not yet run, in the order in which it will. */
  function InFlight(e: Engine, popped: seq<Addr>, batch: seq<Addr>, count: nat, q: Queue): seq<Addr> {
    if (e.RevLoad? || e.RevStore?) && e.q == q then Reverse(popped) + batch
    else if e.Run? && e.q == q && count <= |batch| then batch[count..]
    else []
  }

  /** Jobs pushed and not yet run: what the engine holds, then the stack from bottom to top. */
  function Ahead(c: State, q: Queue): seq<Addr> {
    InFlight(c.engine, At(c.lists, Popped), At(c.lists, Batch), c.count, q)
    + Reverse(At(c.lists, Queued(q)))
  }

  /** Jobs that ran and are not yet deleted. */
  function Behind(c: State): seq<Addr> {
    (if c.count <= |At(c.lists, Batch)| then At(c.lists, Batch)[..c.count] else [])
    + At(c.lists, Trash) + At(c.lists, Doomed)
  }

  ghost predicate InOrder(c: State) {
    forall q :: c.book.pushed.Of(q) == c.book.ran.Of(q) + Names(c.book.ids, Ahead(c, q))
  }

  ghost predicate Accounted(c: State) {
    multiset(c.book.ran.async) + multiset(c.book.ran.consts) == multiset(c.book.deleted)
      + multiset(Names(c.book.ids, Behind(c)))
  }

  /** A job has one number, and a number is pushed at most once. */
  ghost predicate Numbered(c: State) {
    && (forall a :: a in c.book.ids ==> c.book.ids[a] < c.book.issued)
    && (forall a, b :: a in c.book.ids && b in c.book.ids && c.book.ids[a] == c.book.ids[b] ==> a == b)
    && (forall q, x :: x in c.book.pushed.Of(q) ==> x < c.book.issued)
    && (forall q :: Distinct(c.book.pushed.Of(q)))
    && (forall x :: x in c.book.pushed.async ==> x !in c.book.pushed.consts)
    && (forall t, a, q :: t in c.producers && Carries(c.producers[t], a) ==> Id(c, a) !in c.book.pushed.Of(q))
  }

  ghost predicate Inv(c: State) {
    Shape(c) && InOrder(c) && Accounted(c) && Numbered(c)
  }

  lemma NamesFrame(ids: map<Addr, nat>, ids': map<Addr, nat>, s: seq<Addr>)
    requires forall a :: a in s ==> a in ids && a in ids' && ids'[a] == ids[a]
    ensures Names(ids', s) == Names(ids, s)
  {
  }

  lemma NamesConcat(ids: map<Addr, nat>, s: seq<Addr>, t: seq<Addr>)
    ensures Names(ids, s + t) == Names(ids, s) + Names(ids, t)
  {
  }

  lemma {:induction false} ReverseElements<T>(s: seq<T>)
    ensures forall x :: x in Reverse(s) <==> x in s
  {
    if s != [] { ReverseElements(s[1..]); assert s == [s[0]] + s[1..]; }
  }

  /** Everything ahead and behind is alive. */
  lemma Alive(c: State, q: Queue)
    requires Shape(c)
    ensures forall a :: a in Ahead(c, q) || a in Behind(c) ==> In(c.lists, a) && a in c.book.ids
  {
    ReverseElements(At(c.lists, Popped));
    ReverseElements(At(c.lists, Queued(q)));
    forall a | a in Ahead(c, q) || a in Behind(c) ensures In(c.lists, a) && a in c.book.ids {
      assert exists p :: p in {Popped, Batch, Queued(q), Trash, Doomed} && a in At(c.lists, p);
      var p :| a in At(c.lists, p);
      var i :| 0 <= i < |At(c.lists, p)| && At(c.lists, p)[i] == a;
      ReadLink(c.next, At(c.lists, p), i);
    }
  }

  /** A step that neither pushes, runs nor deletes only moves jobs along. */
  lemma MovesAlong(c: State, d: State)
    requires InOrder(c) && Accounted(c)
    requires d.book == c.book
    requires forall q :: Ahead(d, q) == Ahead(c, q)
    requires Behind(d) == Behind(c)
    ensures InOrder(d) && Accounted(d)
  {
    forall q ensures d.book.pushed.Of(q) == d.book.ran.Of(q) + Names(d.book.ids, Ahead(d, q)) {
      assert Ahead(d, q) == Ahead(c, q);
    }
  }

  /** The steps of the engine that move nodes between lists or run a job. */
  predicate Relocates(c: State) {
    match c.engine
    case PopCas(q, seen) => seen != Null && Head(c, Queued(q)) == seen
    case RevStore(_, _, _, _) => true
    case Run(_, _, job, _) => job.Ref?
    case TrashCas(_, _, seen) => Head(c, Trash) == seen
    case _ => false
  }

  lemma PopAllAhead(c: State)
    requires EngineOk(c) && c.engine.PopCas? && c.engine.seen != Null && Head(c, Queued(c.engine.q)) == c.engine.seen
    ensures forall q :: Ahead(ApplyProcess(c), q) == Ahead(c, q)
    ensures Behind(ApplyProcess(c)) == Behind(c)
  {
    var d := ApplyProcess(c);
    forall q ensures Ahead(d, q) == Ahead(c, q) {
      assert At(d.lists, Queued(q)) == if q == c.engine.q then [] else At(c.lists, Queued(q));
      assert At(d.lists, Popped) == At(c.lists, Queued(c.engine.q));
    }
  }

  lemma ShiftAhead(c: State)
    requires EngineOk(c) && c.engine.RevStore?
    ensures forall q :: Ahead(ApplyProcess(c), q) == Ahead(c, q)
    ensures Behind(ApplyProcess(c)) == Behind(c)
  {
    var d := ApplyProcess(c);
    var s, b := At(c.lists, Popped), At(c.lists, Batch);
    assert At(d.lists, Popped) == s[1..] && At(d.lists, Batch) == [s[0]] + b;
    assert Reverse(s) + b == Reverse(s[1..]) + ([s[0]] + b);
  }

  lemma TrashAhead(c: State)
    requires EngineOk(c) && c.engine.TrashCas? && Head(c, Trash) == c.engine.seen
    ensures forall q :: Ahead(ApplyProcess(c), q) == Ahead(c, q)
    ensures Behind(ApplyProcess(c)) == Behind(c)
  {
    var d := ApplyProcess(c);
    var b := At(c.lists, Batch);
    assert b[..c.count] == b && At(d.lists, Trash) == b + At(c.lists, Trash) && At(d.lists, Batch) == [];
    assert Behind(d) == Behind(c);
  }

  lemma RevCount(c: State)
    requires EngineOk(c)
    ensures c.engine.RevLoad? ==> c.count == 0
  {
  }

  lemma LocalLists(c: State)
    requires (c.engine.RevLoad? ==> c.count == 0) && !Relocates(c)
    ensures ApplyProcess(c).lists == c.lists && ApplyProcess(c).count == c.count
  {
    hide Get, Id, ShiftedLists, At, Log.Add;
  }

  lemma LocalAhead(c: State)
    requires EngineOk(c) && !Relocates(c)
    ensures forall q :: Ahead(ApplyProcess(c), q) == Ahead(c, q)
    ensures Behind(ApplyProcess(c)) == Behind(c)
  {
    hide ApplyProcess, EngineOk, Relocates, InFlight;
    var d := ApplyProcess(c);
    var s, b := At(c.lists, Popped), At(c.lists, Batch);
    RevCount(c);
    LocalLists(c);
    forall q ensures InFlight(d.engine, s, b, d.count, q) == InFlight(c.engine, s, b, c.count, q) {
      LocalFlight(c, q);
    }
  }

  lemma LocalFlight(c: State, q: Queue)
    requires EngineOk(c) && !Relocates(c)
    ensures var d, s, b := ApplyProcess(c), At(c.lists, Popped), At(c.lists, Batch);
            InFlight(d.engine, s, b, d.count, q) == InFlight(c.engine, s, b, c.count, q)
  {
    var s, b := At(c.lists, Popped), At(c.lists, Batch);
    if c.engine.RevLoad? && c.engine.cur == Null {
      assert Reverse(s) + b == b[0..];
    } else if c.engine.PopCas? && c.engine.seen == Null {
      assert Reverse(s) + b == [];
    } else if c.engine.Run? {
      assert b[c.count..] == [];
    }
  }

  lemma NamesStep(ids: map<Addr, nat>, b: seq<Addr>, k: nat, rest: seq<Addr>)
    requires k < |b|
    ensures Names(ids, b[k..] + rest) == [if b[k] in ids then ids[b[k]] else 0] + Names(ids, b[k + 1..] + rest)
    ensures multiset(Names(ids, b[..k + 1] + rest))
         == multiset(Names(ids, b[..k] + rest)) + multiset{if b[k] in ids then ids[b[k]] else 0}
  {
    assert b[k..] + rest == [b[k]] + (b[k + 1..] + rest);
    assert b[..k + 1] + rest == b[..k] + ([b[k]] + rest);
    assert Names(ids, [b[k]]) == [if b[k] in ids then ids[b[k]] else 0];
    NamesConcat(ids, [b[k]], b[k + 1..] + rest);
    NamesConcat(ids, b[..k], [b[k]] + rest);
    NamesConcat(ids, [b[k]], rest);
    NamesConcat(ids, b[..k], rest);
  }

  lemma Regroup(x: seq<nat>, i: nat, y: seq<nat>)
    ensures x + ([i] + y) == (x + [i]) + y
  {
  }

  lemma RunOrder(c: State)
    requires InOrder(c) && c.engine.Run? && c.engine.job.Ref?
    requires c.count < |At(c.lists, Batch)| && c.engine.job.addr == At(c.lists, Batch)[c.count]
    ensures InOrder(ApplyProcess(c))
  {
    hide Reverse, Names;
    var d := ApplyProcess(c);
    forall p ensures d.book.pushed.Of(p) == d.book.ran.Of(p) + Names(d.book.ids, Ahead(d, p)) {
      assert c.book.pushed.Of(p) == c.book.ran.Of(p) + Names(c.book.ids, Ahead(c, p));
      if p == c.engine.q { RunOrderOf(c, p); }
    }
  }

  lemma RunOrderOf(c: State, q: Queue)
    requires c.engine.Run? && c.engine.job.Ref? && c.engine.q == q
    requires c.count < |At(c.lists, Batch)| && c.engine.job.addr == At(c.lists, Batch)[c.count]
    requires c.book.pushed.Of(q) == c.book.ran.Of(q) + Names(c.book.ids, Ahead(c, q))
    ensures var d := ApplyProcess(c);
            d.book.pushed.Of(q) == d.book.ran.Of(q) + Names(d.book.ids, Ahead(d, q))
  {
    hide Reverse, Names;
    var d := ApplyProcess(c);
    var b, k := At(c.lists, Batch), c.count;
    NamesStep(c.book.ids, b, k, Reverse(At(c.lists, Queued(q))));
    Regroup(c.book.ran.Of(q), Id(c, b[k]), Names(c.book.ids, Ahead(d, q)));
  }

  lemma RunAccount(c: State)
    requires Accounted(c) && c.engine.Run? && c.engine.job.Ref?
    requires c.count < |At(c.lists, Batch)| && c.engine.job.addr == At(c.lists, Batch)[c.count]
    ensures Accounted(ApplyProcess(c))
  {
    var d := ApplyProcess(c);
    var b, k := At(c.lists, Batch), c.count;
    var t, o := At(c.lists, Trash), At(c.lists, Doomed);
    NamesStep(c.book.ids, b, k, t + o);
    assert b[..k] + t + o == b[..k] + (t + o);
    assert b[..k + 1] + t + o == b[..k + 1] + (t + o);
    assert multiset(d.book.ran.async) + multiset(d.book.ran.consts)
        == multiset(c.book.ran.async) + multiset(c.book.ran.consts) + multiset{Id(c, b[k])};
  }

  lemma ProcessAhead(c: State)
    requires EngineOk(c) && !(c.engine.Run? && c.engine.job.Ref?)
    ensures forall q :: Ahead(ApplyProcess(c), q) == Ahead(c, q)
    ensures Behind(ApplyProcess(c)) == Behind(c)
  {
    if !Relocates(c) {
      LocalAhead(c);
    } else {
      match c.engine
      case PopCas(_, _) => PopAllAhead(c);
      case RevStore(_, _, _, _) => ShiftAhead(c);
      case TrashCas(_, _, _) => TrashAhead(c);
    }
  }

  lemma ProcessOrder(c: State)
    requires Shape(c) && InOrder(c) && Accounted(c)
    ensures InOrder(ApplyProcess(c)) && Accounted(ApplyProcess(c))
  {
    if c.engine.Run? && c.engine.job.Ref? {
      RunFacts(c);
      RunOrder(c);
      RunAccount(c);
    } else {
      ProcessAhead(c);
      ProcessKeepsLogs(c);
      MovesAlong(c, ApplyProcess(c));
    }
  }

  lemma ProcessKeepsLogs(c: State)
    requires !(c.engine.Run? && c.engine.job.Ref?)
    ensures ApplyProcess(c).book == c.book
  {
    match c.engine case Run(_, _, _, _) => case _ =>
  }

  lemma DeleteAccount(c: State)
    requires Shape(c) && InOrder(c) && Accounted(c) && c.owner.Delete? && c.owner.job.Ref?
    ensures InOrder(ApplyDispatch(c)) && Accounted(ApplyDispatch(c))
  {
    var d := ApplyDispatch(c);
    var s := At(c.lists, Doomed);
    DeleteHeap(c);
    DeleteShape(c);
    forall q, a | a in Ahead(d, q) ensures a in d.book.ids { Alive(d, q); }
    Alive(d, AsyncJobs);
    DeleteNames(c, d, s);
  }

  lemma DeleteNames(c: State, d: State, s: seq<Addr>)
    requires InOrder(c) && Accounted(c) && s != [] && At(c.lists, Doomed) == s && At(d.lists, Doomed) == s[1..]
    requires d.engine == c.engine && d.count == c.count && d.book.pushed == c.book.pushed && d.book.ran == c.book.ran
    requires forall p :: p != Doomed ==> At(d.lists, p) == At(c.lists, p)
    requires d.book.ids == c.book.ids - {s[0]} && d.book.deleted == c.book.deleted + [Id(c, s[0])]
    requires forall q, a :: a in Ahead(d, q) ==> a in d.book.ids
    requires forall a :: a in Behind(d) ==> a in d.book.ids
    ensures InOrder(d) && Accounted(d)
  {
    hide Reverse;
    assert forall a :: a in d.book.ids ==> a in c.book.ids && c.book.ids[a] == d.book.ids[a];
    assert InOrder(d) by {
      forall q ensures d.book.pushed.Of(q) == d.book.ran.Of(q) + Names(d.book.ids, Ahead(d, q)) {
        assert Ahead(d, q) == Ahead(c, q);
        NamesFrame(d.book.ids, c.book.ids, Ahead(d, q));
      }
    }
    assert Accounted(d) by {
      NamesFrame(d.book.ids, c.book.ids, Behind(d));
      var rest := (if c.count <= |At(c.lists, Batch)| then At(c.lists, Batch)[..c.count] else []) + At(c.lists, Trash);
      DoomedNames(c.book.ids, rest, s);
      assert Behind(c) == rest + s && Behind(d) == rest + s[1..];
    }
  }

  lemma DoomedNames(ids: map<Addr, nat>, rest: seq<Addr>, s: seq<Addr>)
    requires s != []
    ensures multiset(Names(ids, rest + s))
         == multiset(Names(ids, rest + s[1..])) + multiset{if s[0] in ids then ids[s[0]] else 0}
  {
    assert s == [s[0]] + s[1..];
    NamesConcat(ids, rest, s);
    NamesConcat(ids, [s[0]], s[1..]);
    NamesConcat(ids, rest, s[1..]);
    assert Names(ids, [s[0]]) == [if s[0] in ids then ids[s[0]] else 0];
  }

  lemma DispatchOrder(c: State)
    requires Shape(c) && InOrder(c) && Accounted(c)
    ensures InOrder(ApplyDispatch(c)) && Accounted(ApplyDispatch(c))
  {
    if c.owner.Delete? && c.owner.job.Ref? {
      DeleteAccount(c);
    } else if c.owner.TakeCas? && c.owner.seen != Null && Head(c, Trash) == c.owner.seen {
      TakeAhead(c);
      TakeBehind(c);
      MovesAlong(c, ApplyDispatch(c));
    } else {
      OwnerIdles(c);
    }
  }

  lemma OwnerIdles(c: State)
    requires InOrder(c) && Accounted(c)
    requires !(c.owner.Delete? && c.owner.job.Ref?)
    requires !(c.owner.TakeCas? && c.owner.seen != Null && Head(c, Trash) == c.owner.seen)
    ensures InOrder(ApplyDispatch(c)) && Accounted(ApplyDispatch(c))
  {
    var d := ApplyDispatch(c);
    assert d == c.(owner := d.owner);
    SameLists(c, d);
    MovesAlong(c, d);
  }

  lemma TakeAhead(c: State)
    requires OwnerOk(c) && c.owner.TakeCas? && c.owner.seen != Null && Head(c, Trash) == c.owner.seen
    ensures forall q :: Ahead(ApplyDispatch(c), q) == Ahead(c, q)
  {
    var d := ApplyDispatch(c);
    forall p | p != Trash && p != Doomed ensures At(d.lists, p) == At(c.lists, p) {}
  }

  lemma TakeBehind(c: State)
    requires OwnerOk(c) && c.owner.TakeCas? && c.owner.seen != Null && Head(c, Trash) == c.owner.seen
    ensures Behind(ApplyDispatch(c)) == Behind(c)
  {
    var d := ApplyDispatch(c);
    assert At(d.lists, Trash) == [] && At(d.lists, Doomed) == At(c.lists, Trash) && At(c.lists, Doomed) == [];
    var b, t := if c.count <= |At(c.lists, Batch)| then At(c.lists, Batch)[..c.count] else [], At(c.lists, Trash);
    assert b + t + [] == b + [] + t;
  }

  /** The owner's own bookkeeping. */
  lemma SameLists(c: State, d: State)
    requires d.lists == c.lists && d.engine == c.engine && d.count == c.count
    ensures forall q :: Ahead(d, q) == Ahead(c, q)
    ensures Behind(d) == Behind(c)
  {
  }

  lemma NewJobOrder(c: State, t: Tid, q: Queue, job: Addr)
    requires Shape(c) && InOrder(c) && Accounted(c) && Enabled(c, NewJob(t, q, job))
    ensures InOrder(Apply(c, NewJob(t, q, job))) && Accounted(Apply(c, NewJob(t, q, job)))
  {
    var d := Apply(c, NewJob(t, q, job));
    forall p ensures d.book.pushed.Of(p) == d.book.ran.Of(p) + Names(d.book.ids, Ahead(d, p)) {
      assert Ahead(d, p) == Ahead(c, p);
      Alive(c, p);
      NamesFrame(c.book.ids, d.book.ids, Ahead(d, p));
    }
    Alive(c, AsyncJobs);
    NamesFrame(c.book.ids, d.book.ids, Behind(c));
    assert Behind(d) == Behind(c);
  }

  /** A successful push puts the job behind all others of its queue. */
  lemma PushAhead(c: State, t: Tid, p: Queue)
    requires t in c.producers && c.producers[t].Cas?
    requires Head(c, Queued(c.producers[t].q)) == c.producers[t].seen
    ensures Ahead(ApplyProduce(c, t), p) == Ahead(c, p) + if p == c.producers[t].q then [c.producers[t].job] else []
    ensures Behind(ApplyProduce(c, t)) == Behind(c)
  {
    hide EngineOk, InFlight;
    var d := ApplyProduce(c, t);
    var q, job := c.producers[t].q, c.producers[t].job;
    forall r | r != Queued(q) ensures At(d.lists, r) == At(c.lists, r) {}
    var s := At(c.lists, Queued(q));
    assert At(d.lists, Queued(q)) == [job] + s && ([job] + s)[1..] == s;
  }

  lemma PushOrder(c: State, t: Tid)
    requires InOrder(c) && Accounted(c) && t in c.producers && c.producers[t].Cas?
    requires Head(c, Queued(c.producers[t].q)) == c.producers[t].seen
    ensures InOrder(ApplyProduce(c, t)) && Accounted(ApplyProduce(c, t))
  {
    hide EngineOk, Ahead, Behind;
    var d := ApplyProduce(c, t);
    var q, job := c.producers[t].q, c.producers[t].job;
    forall p ensures d.book.pushed.Of(p) == d.book.ran.Of(p) + Names(d.book.ids, Ahead(d, p)) {
      PushAhead(c, t, p);
      if p == q {
        NamesConcat(c.book.ids, Ahead(c, q), [job]);
        assert Names(c.book.ids, [job]) == [Id(c, job)];
      } else {
        assert d.book.pushed.Of(p) == c.book.pushed.Of(p) && Ahead(c, p) + [] == Ahead(c, p);
      }
    }
    PushAhead(c, t, q);
  }

  lemma ProduceOrder(c: State, t: Tid)
    requires InOrder(c) && Accounted(c) && t in c.producers
    ensures InOrder(ApplyProduce(c, t)) && Accounted(ApplyProduce(c, t))
  {
    if c.producers[t].Cas? && Head(c, Queued(c.producers[t].q)) == c.producers[t].seen {
      PushOrder(c, t);
    } else {
      var d := ApplyProduce(c, t);
      assert d == c.(next := d.next, producers := d.producers);
      SameLists(c, d);
      MovesAlong(c, d);
    }
  }

  lemma StepOrder(c: State, s: Step)
    requires Shape(c) && InOrder(c) && Accounted(c) && Enabled(c, s)
    ensures InOrder(Apply(c, s)) && Accounted(Apply(c, s))
  {
    match s
    case NewJob(t, q, job) => NewJobOrder(c, t, q, job);
    case Produce(t) => ProduceOrder(c, t);
    case Process => ProcessOrder(c);
    case Dispatch => DispatchOrder(c);
    case StartProcess(q) => MovesAlong(c, Apply(c, s));
    case StartDispatch => MovesAlong(c, Apply(c, s));
  }

  lemma PushedOnce(c: State, q: Queue, x: nat)
    requires Numbered(c) && x < c.book.issued && forall p :: x !in c.book.pushed.Of(p)
    ensures var pushed := c.book.pushed.Add(q, x);
            && (forall p, y :: y in pushed.Of(p) ==> y < c.book.issued)
            && (forall p :: Distinct(pushed.Of(p)))
            && (forall y :: y in pushed.async ==> y !in pushed.consts)
            && (forall p, y :: y in pushed.Of(p) ==> y == x || y in c.book.pushed.Of(p))
  {
    assert x !in c.book.pushed.Of(AsyncJobs) && x !in c.book.pushed.Of(ConstJobs);
    forall p ensures Distinct(c.book.pushed.Add(q, x).Of(p)) { assert Distinct(c.book.pushed.Of(p)); }
  }

  lemma PushNumbered(c: State, t: Tid)
    requires ProducersOk(c) && Numbered(c) && c.book.ids.Keys == c.next.Keys && t in c.producers && c.producers[t].Cas?
    requires Head(c, Queued(c.producers[t].q)) == c.producers[t].seen
    ensures Numbered(ApplyProduce(c, t))
  {
    hide In, Distinct;
    var d := ApplyProduce(c, t);
    var q, job := c.producers[t].q, c.producers[t].job;
    assert Carries(c.producers[t], job);
    forall p ensures Id(c, job) !in c.book.pushed.Of(p) {}
    PushedOnce(c, q, Id(c, job));
    forall u, a, p | u in d.producers && Carries(d.producers[u], a) ensures Id(d, a) !in d.book.pushed.Of(p) {
      assert Carries(c.producers[u], a) && u != t && a != job;
      assert Id(c, a) != Id(c, job) && Id(c, a) !in c.book.pushed.Of(p);
    }
  }

  lemma StepNumbered(c: State, s: Step)
    requires Shape(c) && Numbered(c) && Enabled(c, s)
    ensures Numbered(Apply(c, s))
  {
    StepShape(c, s);
    NumberedStep(c, s);
  }

  lemma NumberedStep(c: State, s: Step)
    requires ProducersOk(c) && c.book.ids.Keys == c.next.Keys && Numbered(c) && Enabled(c, s)
    requires ProducersOk(Apply(c, s)) && Apply(c, s).book.ids.Keys == Apply(c, s).next.Keys
    ensures Numbered(Apply(c, s))
  {
    var d := Apply(c, s);
    match s
    case NewJob(t, q, job) => NewJobNumbered(c, t, q, job);
    case Produce(t) => ProduceNumbered(c, t);
    case Process => ProcessNumbered(c);
    case Dispatch => DispatchNumbered(c);
    case StartProcess(_) => CarriedNumbered(c, d);
    case StartDispatch => CarriedNumbered(c, d);
  }

  lemma DispatchNumbered(c: State)
    requires Numbered(c) && ProducersOk(c) && ProducersOk(ApplyDispatch(c))
    requires ApplyDispatch(c).book.ids.Keys == ApplyDispatch(c).next.Keys
    ensures Numbered(ApplyDispatch(c))
  {
    hide ProducersOk, Numbered;
    var d := ApplyDispatch(c);
    assert d.producers == c.producers && d.book.pushed == c.book.pushed && d.book.issued == c.book.issued;
    assert forall a :: a in d.book.ids ==> a in c.book.ids && d.book.ids[a] == c.book.ids[a];
    CarriedNumbered(c, d);
  }

  lemma ProduceNumbered(c: State, t: Tid)
    requires ProducersOk(c) && Numbered(c) && c.book.ids.Keys == c.next.Keys && t in c.producers
    requires ProducersOk(ApplyProduce(c, t))
    ensures Numbered(ApplyProduce(c, t))
  {
    if c.producers[t].Cas? && Head(c, Queued(c.producers[t].q)) == c.producers[t].seen {
      PushNumbered(c, t);
    } else {
      var d := ApplyProduce(c, t);
      assert d.book == c.book;
      forall u, a, p | u in d.producers && Carries(d.producers[u], a) ensures Id(d, a) !in d.book.pushed.Of(p) {
        assert Carries(c.producers[u], a) && Id(d, a) == Id(c, a) && Id(c, a) !in c.book.pushed.Of(p);
      }
    }
  }

  lemma ProcessNumbered(c: State)
    requires Numbered(c)
    ensures Numbered(ApplyProcess(c))
  {
    var d := ApplyProcess(c);
    ProcessBook(c);
    forall u, a, p | u in d.producers && Carries(d.producers[u], a) ensures Id(d, a) !in d.book.pushed.Of(p) {
      assert Id(d, a) == Id(c, a) && Id(c, a) !in c.book.pushed.Of(p);
    }
  }

  lemma ProcessBook(c: State)
    ensures var d := ApplyProcess(c);
            d.producers == c.producers && d.book.(ran := c.book.ran) == c.book
  {
    if !(c.engine.Run? && c.engine.job.Ref?) { ProcessKeepsLogs(c); }
  }

  lemma NewJobNumbered(c: State, t: Tid, q: Queue, job: Addr)
    requires ProducersOk(c) && Numbered(c) && Enabled(c, NewJob(t, q, job)) && c.book.ids.Keys == c.next.Keys
    ensures Numbered(Apply(c, NewJob(t, q, job)))
  {
    var d := Apply(c, NewJob(t, q, job));
    forall u, a, p | u in d.producers && Carries(d.producers[u], a) ensures Id(d, a) !in d.book.pushed.Of(p) {
      if u == t {
        assert Id(d, a) == c.book.issued;
      } else {
        assert Carries(c.producers[u], a) && a in c.next && a != job;
        assert Id(d, a) == Id(c, a) && Id(c, a) !in c.book.pushed.Of(p);
      }
    }
  }

  /** Steps that push nothing and create nothing. */
  lemma CarriedNumbered(c: State, d: State)
    requires ProducersOk(d) && Numbered(c)
    requires d.book.pushed == c.book.pushed && d.book.issued == c.book.issued && d.book.ids.Keys == d.next.Keys
    requires forall a :: a in d.book.ids ==> a in c.book.ids && d.book.ids[a] == c.book.ids[a]
    requires forall u, a :: u in d.producers && Carries(d.producers[u], a)
               ==> u in c.producers && Carries(c.producers[u], a)
    ensures Numbered(d)
  {
    forall u, a, p | u in d.producers && Carries(d.producers[u], a) ensures Id(d, a) !in d.book.pushed.Of(p) {
      assert a in d.next && Id(d, a) == Id(c, a);
    }
  }

  lemma StepInv(c: State, s: Step)
    requires Inv(c) && Enabled(c, s)
    ensures Inv(Apply(c, s))
  {
    StepShape(c, s);
    StepOrder(c, s);
    StepNumbered(c, s);
  }

  lemma InitInv(c: State)
    requires Init(c)
    ensures Inv(c)
  {
    InitShape(c);
  }

  lemma {:induction false} RunInvariant(c: State, steps: seq<Step>)
    requires Inv(c) && IsRun(c, steps)
    ensures Inv(Final(c, steps))
    decreases |steps|
  {
    if steps != [] {
      StepInv(c, steps[0]);
      RunInvariant(Apply(c, steps[0]), steps[1..]);
    }
  }

  /** In every interleaving the jobs of a queue run in the order of their pushes, none twice and none
      left out, and only jobs that ran are deleted, none twice. */
  lemma JobsRunOnceInOrder(c: State, steps: seq<Step>)
    requires Init(c) && IsRun(c, steps)
    ensures var d := Final(c, steps);
            && (forall q :: d.book.ran.Of(q) <= d.book.pushed.Of(q) && Distinct(d.book.pushed.Of(q)))
            && multiset(d.book.deleted) <= multiset(d.book.ran.async) + multiset(d.book.ran.consts)
            && Distinct(d.book.deleted)
  {
    InitInv(c);
    RunInvariant(c, steps);
    var d := Final(c, steps);
    forall q ensures d.book.ran.Of(q) <= d.book.pushed.Of(q) {
      assert d.book.pushed.Of(q) == d.book.ran.Of(q) + Names(d.book.ids, Ahead(d, q));
    }
    OnceRan(d);
  }

  lemma DrainedQueue(d: State, q: Queue)
    requires Inv(d) && d.engine.Resting? && Head(d, Queued(q)) == Null
    ensures d.book.ran.Of(q) == d.book.pushed.Of(q)
  {
    hide Ok, Accounted, Numbered;
    assert Ahead(d, q) == [];
    assert d.book.pushed.Of(q) == d.book.ran.Of(q) + Names(d.book.ids, Ahead(d, q));
  }

  /** Once the queues are drained and the engine and the owner rest, every job ever pushed has run
      and every job that ran is deleted or waits in the trash. */
  lemma NothingLost(c: State, steps: seq<Step>)
    requires Init(c) && IsRun(c, steps)
    ensures var d := Final(c, steps);
            && (forall q :: d.engine.Resting? && Head(d, Queued(q)) == Null ==> d.book.ran.Of(q) == d.book.pushed.Of(q))
            && (d.engine.Resting? && d.owner.Waiting? && Head(d, Trash) == Null ==>
                  multiset(d.book.deleted) == multiset(d.book.ran.async) + multiset(d.book.ran.consts))
  {
    InitInv(c);
    RunInvariant(c, steps);
    var d := Final(c, steps);
    forall q | d.engine.Resting? && Head(d, Queued(q)) == Null ensures d.book.ran.Of(q) == d.book.pushed.Of(q) {
      DrainedQueue(d, q);
    }
  }

  lemma DistinctCounts(s: seq<nat>)
    ensures Distinct(s) <==> forall x :: multiset(s)[x] <= 1
  {
    if Distinct(s) {
      forall x ensures multiset(s)[x] <= 1 { AtMostOne(s, x); }
    } else {
      var i, j :| 0 <= i < j < |s| && s[i] == s[j];
      assert s == s[..i] + [s[i]] + s[i + 1..j] + [s[j]] + s[j + 1..];
      assert multiset(s)[s[i]] >= 2;
    }
  }

  lemma {:induction false} AtMostOne(s: seq<nat>, x: nat)
    requires Distinct(s)
    ensures multiset(s)[x] <= 1
  {
    if s != [] {
      assert s == [s[0]] + s[1..];
      if s[0] == x { assert x !in s[1..]; } else { AtMostOne(s[1..], x); }
    }
  }

  lemma OnceRan(d: State)
    requires Inv(d)
    ensures Distinct(d.book.deleted)
  {
    DistinctCounts(d.book.pushed.Of(AsyncJobs));
    DistinctCounts(d.book.pushed.Of(ConstJobs));
    forall q, x ensures multiset(d.book.ran.Of(q))[x] <= multiset(d.book.pushed.Of(q))[x] {
      assert d.book.pushed.Of(q) == d.book.ran.Of(q) + Names(d.book.ids, Ahead(d, q));
    }
    forall x ensures multiset(d.book.deleted)[x] <= 1 {
      assert multiset(d.book.ran.Of(AsyncJobs))[x] <= multiset(d.book.pushed.Of(AsyncJobs))[x];
      assert multiset(d.book.ran.Of(ConstJobs))[x] <= multiset(d.book.pushed.Of(ConstJobs))[x];
      assert x in d.book.pushed.async ==> x !in d.book.pushed.consts;
      assert multiset(d.book.deleted)[x] <= (multiset(d.book.ran.async) + multiset(d.book.ran.consts))[x];
    }
    DistinctCounts(d.book.deleted);
  }

  /** The assertion in push_chain() never fails, neither for a producer nor for the trash. */
  lemma NullTails(c: State, steps: seq<Step>)
    requires Init(c) && IsRun(c, steps)
    ensures var d := Final(c, steps);
            && (forall t :: t in d.producers && d.producers[t].Check? ==> Get(d.next, d.producers[t].job) == Null)
            && (d.engine.TrashCheck? ==> Get(d.next, d.engine.end) == Null)
  {
    hide Ok, InOrder, Accounted, Numbered;
    InitInv(c);
    RunInvariant(c, steps);
    var d := Final(c, steps);
    ListChain(d.next, d.lists, Loose(d.engine), Batch);
    forall t | t in d.producers && d.producers[t].Check? ensures Get(d.next, d.producers[t].job) == Null {
      assert ProducerOk(d, d.producers[t]);
    }
  }

  // ---------------------------------------------------------------------------------------------
  // The wakeup of the owner
  // ---------------------------------------------------------------------------------------------

  /** If a wakeup of the owner is pending after a step: owner_wakeup_() sets it, and the owner answers it by
      starting to dispatch. */
  predicate WokenBy(c: State, s: Step, woken: bool) {
    if s.Process? && c.engine.OwnerWakeup? then true
    else if s.StartDispatch? then false
    else woken
  }

  ghost predicate WokenAfter(c: State, steps: seq<Step>, woken: bool)
    requires IsRun(c, steps)
    decreases |steps|
  {
    if steps == [] then woken else WokenAfter(Apply(c, steps[0]), steps[1..], WokenBy(c, steps[0], woken))
  }

  /** With jobs in the trash, a wakeup of the owner is pending or about to be sent, or the owner is about to take it. */
  predicate OwnerTold(c: State, woken: bool) {
    Head(c, Trash).Ref? ==>
      woken || c.engine.OwnerWakeup? || c.owner.TakeLoad? || (c.owner.TakeCas? && c.owner.seen.Ref?)
  }

  /** Only the push that makes the trash non-empty is followed by a wakeup, and that is enough. */
  lemma StepTellsOwner(c: State, s: Step, woken: bool)
    requires Enabled(c, s) && OwnerTold(c, woken)
    ensures OwnerTold(Apply(c, s), WokenBy(c, s, woken))
  {
    if s.Process? {
      ProcessTellsOwner(c, woken);
    }
  }

  lemma ProcessTellsOwner(c: State, woken: bool)
    requires OwnerTold(c, woken)
    ensures OwnerTold(ApplyProcess(c), woken || c.engine.OwnerWakeup?)
  {
  }

  lemma {:induction false} RunTellsOwner(c: State, steps: seq<Step>, woken: bool)
    requires IsRun(c, steps) && OwnerTold(c, woken)
    ensures OwnerTold(Final(c, steps), WokenAfter(c, steps, woken))
    decreases |steps|
  {
    hide OwnerTold, Apply, Enabled, WokenBy;
    if steps != [] {
      StepTellsOwner(c, steps[0], woken);
      RunTellsOwner(Apply(c, steps[0]), steps[1..], WokenBy(c, steps[0], woken));
    }
  }

  /** No stranded trash: while the owner waits with jobs to delete, a wakeup is pending that it has not answered
      yet, or the engine stands between its push and that wakeup. */
  lemma NoStrandedTrash(c: State, steps: seq<Step>)
    requires Init(c) && IsRun(c, steps)
    ensures var d := Final(c, steps);
            d.owner.Waiting? && Head(d, Trash).Ref? ==> WokenAfter(c, steps, false) || d.engine.OwnerWakeup?
  {
    RunTellsOwner(c, steps, false);
  }
}
