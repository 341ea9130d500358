/**
 The multi-producer, multi-consumer stack of ase/atomics.hh as a transition system: every load,
 store and compare-and-swap of push() and pop() is one step of one of any number of threads, and
 between two steps anybody may rewrite the `intr_ptr_` of a node that is neither enlisted nor in
 the hands of a pusher.

 The main result is linearizability: a run of this system has the same calls and returns, in the
 same order, as a run of a machine whose push and pop are single atomic steps on a sequence.
 */
module MpmcStack {
  import opened Basics

  type Node = nat
  type Tid = nat

  /** A node pointer: nullptr, the all-ones TAIL_ marker, or a node. */
  datatype Ptr = Null | Tail | Ref(node: Node)

  /** The double-word cell that all threads swap: `next` and `aba_counter`. */
  datatype Head = Head(next: Ptr, aba: nat)

  /** Where a thread is inside push() or pop(), together with its local variables. */
  datatype Pc =
    | Idle
    | PushLoad(node: Node)
    | PushStore(node: Node, seen: Head)
    | PushCas(node: Node, seen: Head)
    | PushDone(node: Node, wasEmpty: bool)
    | PopLoad
    | PopTest(seen: Head)
    | PopRead(seen: Head)
    | PopCas(seen: Head, next: Ptr)
    | PopClear(node: Node)
    | PopDone(popped: Option<Node>)

  /** `listed` is an auxiliary variable, the enlisted nodes from top to bottom: the code never
      reads it, it only names the nodes that an outsider must keep away from. Another one, `pushed`,
      records all nodes that were ever enlisted. */
  datatype State = State(head: Head, intr: map<Node, Ptr>, pcs: map<Tid, Pc>, listed: seq<Node>, pushed: set<Node>)

  datatype Step =
    | CallPush(t: Tid, node: Node)
    | CallPop(t: Tid)
    | Advance(t: Tid)
    | SpuriousFail(t: Tid)
    | Interfere(node: Node, p: Ptr)

  predicate Owns(pc: Pc, n: Node) {
    match pc
    case PushLoad(m) => n == m
    case PushStore(m, _) => n == m
    case PushCas(m, _) => n == m
    case PopClear(m) => n == m
    case _ => false
  }

  predicate Pushing(pc: Pc, n: Node) {
    Owns(pc, n) && !pc.PopClear?
  }

  predicate Enabled(c: State, s: Step) {
    match s
    case CallPush(t, n) =>
      && t in c.pcs && c.pcs[t].Idle?
      && n in c.intr && c.intr[n] == Null
      && (forall u :: u in c.pcs ==> !Owns(c.pcs[u], n))
    case CallPop(t) => t in c.pcs && c.pcs[t].Idle?
    case Advance(t) => t in c.pcs && !c.pcs[t].Idle?
    case SpuriousFail(t) => t in c.pcs && (c.pcs[t].PushCas? || c.pcs[t].PopCas?)
    case Interfere(n, _) =>
      n !in c.listed && (forall u :: u in c.pcs ==> !Pushing(c.pcs[u], n))
  }

  function ReadIntr(c: State, p: Ptr): Ptr {
    if p.Ref? && p.node in c.intr then c.intr[p.node] else Null
  }

  function Move(c: State, t: Tid, pc: Pc): State {
    c.(pcs := c.pcs[t := pc])
  }

  /** One atomic access of thread t; a compare-and-swap that fails reloads the head. */
  function AdvanceThread(c: State, t: Tid): State
    requires t in c.pcs
  {
    match c.pcs[t]
    case Idle => c
    case PushLoad(n) => Move(c, t, PushStore(n, c.head))
    case PushStore(n, seen) => Move(c.(intr := c.intr[n := seen.next]), t, PushCas(n, seen))
    case PushCas(n, seen) =>
      if c.head == seen then
        Move(c.(head := Head(Ref(n), seen.aba), listed := [n] + c.listed, pushed := c.pushed + {n}),
             t, PushDone(n, seen.next == Tail))
      else Reload(c, t)
    case PushDone(_, _) => Move(c, t, Idle)
    case PopLoad => Move(c, t, PopTest(c.head))
    case PopTest(seen) =>
      Move(c, t, if seen.next == Tail then PopDone(None) else PopRead(seen))
    case PopRead(seen) => Move(c, t, PopCas(seen, ReadIntr(c, seen.next)))
    case PopCas(seen, next) =>
      if c.head == seen && seen.next.Ref? then
        Move(c.(head := Head(next, seen.aba + 1), listed := if c.listed == [] then [] else c.listed[1..]),
             t, PopClear(seen.next.node))
      else Reload(c, t)
    case PopClear(n) => Move(c.(intr := c.intr[n := Null]), t, PopDone(Some(n)))
    case PopDone(_) => Move(c, t, Idle)
  }

  function Reload(c: State, t: Tid): State
    requires t in c.pcs && (c.pcs[t].PushCas? || c.pcs[t].PopCas?)
  {
    match c.pcs[t]
    case PushCas(n, _) => Move(c, t, PushStore(n, c.head))
    case PopCas(_, _) => Move(c, t, PopTest(c.head))
  }

  function Apply(c: State, s: Step): State
    requires Enabled(c, s)
  {
    match s
    case CallPush(t, n) => Move(c, t, PushLoad(n))
    case CallPop(t) => Move(c, t, PopLoad)
    case Advance(t) => AdvanceThread(c, t)
    case SpuriousFail(t) => Reload(c, t)
    case Interfere(n, p) => c.(intr := c.intr[n := p])
  }

  predicate Init(c: State) {
    && c.head == Head(Tail, 0)
    && c.listed == [] && c.pushed == {}
    && (forall t :: t in c.pcs ==> c.pcs[t] == Idle)
  }

  ghost predicate IsRun(c: State, steps: seq<Step>)
    decreases |steps|
  {
    steps == [] || (Enabled(c, steps[0]) && IsRun(Apply(c, steps[0]), steps[1..]))
  }

  ghost function Final(c: State, steps: seq<Step>): State
    requires IsRun(c, steps)
    decreases |steps|
  {
    if steps == [] then c else Final(Apply(c, steps[0]), steps[1..])
  }

  // ---------------------------------------------------------------------------------------------
  // The atomic stack
  // ---------------------------------------------------------------------------------------------

  datatype Op = Push(node: Node) | Pop
  datatype Result = WasEmpty(yes: bool) | Popped(top: Option<Node>)
  datatype AtomicOp = Free | Pending(op: Op) | Done(op: Op, result: Result)
  datatype Atomic = Atomic(stack: seq<Node>, ops: map<Tid, AtomicOp>)
  datatype AtomicStep = Call(t: Tid, op: Op) | Effect(t: Tid) | Return(t: Tid)

  /** What an observer of the interface sees. */
  datatype Event = Called(t: Tid, op: Op) | Returned(t: Tid, op: Op, result: Result)

  predicate AtomicEnabled(a: Atomic, s: AtomicStep) {
    match s
    case Call(t, _) => t in a.ops && a.ops[t].Free?
    case Effect(t) => t in a.ops && a.ops[t].Pending?
    case Return(t) => t in a.ops && a.ops[t].Done?
  }

  /** The whole of an operation happens at its Effect step. */
  function AtomicApply(a: Atomic, s: AtomicStep): Atomic
    requires AtomicEnabled(a, s)
  {
    match s
    case Call(t, op) => a.(ops := a.ops[t := Pending(op)])
    case Effect(t) =>
      (match a.ops[t].op
       case Push(n) =>
         Atomic([n] + a.stack, a.ops[t := Done(Push(n), WasEmpty(a.stack == []))])
       case Pop =>
         if a.stack == [] then a.(ops := a.ops[t := Done(Pop, Popped(None))])
         else Atomic(a.stack[1..], a.ops[t := Done(Pop, Popped(Some(a.stack[0])))]))
    case Return(t) => a.(ops := a.ops[t := Free])
  }

  ghost predicate IsAtomicRun(a: Atomic, steps: seq<AtomicStep>)
    decreases |steps|
  {
    steps == [] || (AtomicEnabled(a, steps[0]) && IsAtomicRun(AtomicApply(a, steps[0]), steps[1..]))
  }

  ghost function AtomicHistory(a: Atomic, steps: seq<AtomicStep>): seq<Event>
    requires IsAtomicRun(a, steps)
    decreases |steps|
  {
    if steps == [] then [] else
      AtomicEvent(a, steps[0]) + AtomicHistory(AtomicApply(a, steps[0]), steps[1..])
  }

  function AtomicEvent(a: Atomic, s: AtomicStep): seq<Event>
    requires AtomicEnabled(a, s)
  {
    match s
    case Call(t, op) => [Called(t, op)]
    case Effect(_) => []
    case Return(t) => [Returned(t, a.ops[t].op, a.ops[t].result)]
  }

  // ---------------------------------------------------------------------------------------------
  // Observing the concrete system
  // ---------------------------------------------------------------------------------------------

  function StepEvent(c: State, s: Step): seq<Event>
    requires Enabled(c, s)
  {
    match s
    case CallPush(t, n) => [Called(t, Push(n))]
    case CallPop(t) => [Called(t, Pop)]
    case Advance(t) =>
      (match c.pcs[t]
       case PushDone(n, e) => [Returned(t, Push(n), WasEmpty(e))]
       case PopDone(r) => [Returned(t, Pop, Popped(r))]
       case _ => [])
    case _ => []
  }

  ghost function History(c: State, steps: seq<Step>): seq<Event>
    requires IsRun(c, steps)
    decreases |steps|
  {
    if steps == [] then [] else StepEvent(c, steps[0]) + History(Apply(c, steps[0]), steps[1..])
  }

  // ---------------------------------------------------------------------------------------------
  // The invariant
  // ---------------------------------------------------------------------------------------------

  /** The chain from head through intr spells out `listed` and ends in TAIL_. */
  ghost predicate Linked(c: State) {
    && Distinct(c.listed)
    && c.head.next == PtrAt(c.listed, 0)
    && (forall i :: 0 <= i < |c.listed| ==>
          c.listed[i] in c.pushed && c.listed[i] in c.intr && c.intr[c.listed[i]] == PtrAt(c.listed, i + 1))
  }

  function PtrAt(s: seq<Node>, i: nat): Ptr {
    if i < |s| then Ref(s[i]) else Tail
  }

  ghost predicate Exclusive(c: State) {
    && (forall t, n :: t in c.pcs && Owns(c.pcs[t], n) ==> n !in c.listed)
    && (forall t, u, n :: t in c.pcs && u in c.pcs && Owns(c.pcs[t], n) && Owns(c.pcs[u], n) ==> t == u)
  }

  /** As long as no pop succeeded since the head was read, the node seen on top is still enlisted
      and a pointer read from it is still its own link. This is why tagging pops is enough. */
  ghost predicate Fresh(c: State, seen: Head) {
    && (seen.next == Tail || seen.next.Ref?)
    && seen.aba <= c.head.aba
    && (seen.next.Ref? ==> seen.next.node in c.intr && seen.next.node in c.pushed)
    && (seen.next.Ref? && seen.aba == c.head.aba ==> seen.next.node in c.listed)
  }

  ghost predicate PcOk(c: State, pc: Pc) {
    match pc
    case PushLoad(n) => n in c.intr
    case PushStore(n, seen) => n in c.intr && Fresh(c, seen)
    case PushCas(n, seen) => n in c.intr && Fresh(c, seen) && c.intr[n] == seen.next
    case PopTest(seen) => Fresh(c, seen)
    case PopRead(seen) => Fresh(c, seen) && seen.next.Ref?
    case PopCas(seen, next) =>
      && Fresh(c, seen) && seen.next.Ref?
      && (seen.aba == c.head.aba ==> next == c.intr[seen.next.node])
    case PopClear(n) => n in c.intr
    case _ => true
  }

  ghost predicate Inv(c: State) {
    && Linked(c)
    && Exclusive(c)
    && (forall t :: t in c.pcs ==> PcOk(c, c.pcs[t]))
  }

  lemma InitInv(c: State)
    requires Init(c)
    ensures Inv(c)
  {
  }

  /** A store to the link of an unlisted node disturbs nobody but the pusher of that node. */
  lemma StoreKeepsPc(c: State, n: Node, p: Ptr, pc: Pc)
    requires PcOk(c, pc) && n !in c.listed && !Pushing(pc, n)
    ensures PcOk(c.(intr := c.intr[n := p]), pc)
  {
  }

  lemma StoreInv(c: State, n: Node, p: Ptr, t: Tid, pc: Pc)
    requires Inv(c) && n !in c.listed && t in c.pcs
    requires forall u :: u in c.pcs && u != t ==> !Pushing(c.pcs[u], n)
    requires forall m :: Owns(pc, m) ==> Owns(c.pcs[t], m)
    requires PcOk(c.(intr := c.intr[n := p]), pc)
    ensures Inv(Move(c.(intr := c.intr[n := p]), t, pc))
  {
    var d := Move(c.(intr := c.intr[n := p]), t, pc);
    forall u | u in d.pcs ensures PcOk(d, d.pcs[u]) {
      if u != t { StoreKeepsPc(c, n, p, c.pcs[u]); }
    }
  }

  lemma MoveInv(c: State, t: Tid, pc: Pc)
    requires Inv(c) && t in c.pcs && PcOk(c, pc)
    requires forall m :: Owns(pc, m) ==> Owns(c.pcs[t], m)
    ensures Inv(Move(c, t, pc))
  {
    var d := Move(c, t, pc);
    forall u | u in d.pcs ensures PcOk(d, d.pcs[u]) {
      if u != t { assert PcOk(c, c.pcs[u]); }
    }
  }

  lemma SwapKeepsPc(c: State, d: State, pc: Pc)
    requires PcOk(c, pc) && d.intr == c.intr && c.pushed <= d.pushed
    requires d.head.aba > c.head.aba || (d.head.aba == c.head.aba && forall n :: n in c.listed ==> n in d.listed)
    ensures PcOk(d, pc)
  {
  }

  lemma PushInv(c: State, t: Tid)
    requires Inv(c) && t in c.pcs && c.pcs[t].PushCas? && c.head == c.pcs[t].seen
    ensures Inv(AdvanceThread(c, t))
  {
    var d := AdvanceThread(c, t);
    var n := c.pcs[t].node;
    forall i | 0 <= i < |d.listed|
      ensures d.listed[i] in d.pushed && d.listed[i] in d.intr && d.intr[d.listed[i]] == PtrAt(d.listed, i + 1)
    {
      if i > 0 { assert d.listed[i] == c.listed[i - 1]; }
    }
    forall u | u in d.pcs ensures PcOk(d, d.pcs[u]) {
      if u != t { SwapKeepsPc(c, d, c.pcs[u]); }
    }
  }

  /** The compare-and-swap of a pop succeeds only with the true successor of the top node. */
  lemma PopInv(c: State, t: Tid)
    requires Inv(c) && t in c.pcs && c.pcs[t].PopCas? && c.head == c.pcs[t].seen
    ensures c.listed != [] && c.pcs[t].seen.next == Ref(c.listed[0]) && c.pcs[t].next == PtrAt(c.listed, 1)
    ensures Inv(AdvanceThread(c, t))
  {
    var d := AdvanceThread(c, t);
    assert PcOk(c, c.pcs[t]);
    assert d.listed == c.listed[1..] && c.listed[0] !in d.listed;
    forall i | 0 <= i < |d.listed|
      ensures d.listed[i] in d.pushed && d.listed[i] in d.intr && d.intr[d.listed[i]] == PtrAt(d.listed, i + 1)
    {
      assert d.listed[i] == c.listed[i + 1];
    }
    forall u, n | u in d.pcs && Owns(d.pcs[u], n) ensures n !in d.listed {
      if u == t { assert n == c.listed[0]; } else { assert Owns(c.pcs[u], n) && n !in c.listed; }
    }
    forall u | u in d.pcs ensures PcOk(d, d.pcs[u]) {
      if u != t { SwapKeepsPc(c, d, c.pcs[u]); }
    }
  }

  lemma AdvanceInv(c: State, t: Tid)
    requires Inv(c) && t in c.pcs
    ensures Inv(AdvanceThread(c, t))
  {
    var d := AdvanceThread(c, t);
    assert PcOk(c, c.pcs[t]);
    match c.pcs[t]
    case Idle =>
    case PushStore(n, seen) => StoreInv(c, n, seen.next, t, PushCas(n, seen));
    case PushCas(n, seen) =>
      if c.head == seen { PushInv(c, t); } else { MoveInv(c, t, PushStore(n, c.head)); }
    case PopCas(seen, next) =>
      if c.head == seen { PopInv(c, t); } else { MoveInv(c, t, PopTest(c.head)); }
    case PopClear(n) => StoreInv(c, n, Null, t, PopDone(Some(n)));
    case _ => MoveInv(c, t, d.pcs[t]);
  }

  /** Every step keeps the invariant, whatever the threads and the outsiders do. */
  lemma StepInv(c: State, s: Step)
    requires Inv(c) && Enabled(c, s)
    ensures Inv(Apply(c, s))
  {
    match s
    case CallPush(t, n) => CallPushInv(c, t, n);
    case CallPop(t) => MoveInv(c, t, PopLoad);
    case Advance(t) => AdvanceInv(c, t);
    case SpuriousFail(t) =>
      assert PcOk(c, c.pcs[t]);
      MoveInv(c, t, Apply(c, s).pcs[t]);
    case Interfere(n, p) => InterfereInv(c, n, p);
  }

  /** A node with a null link cannot be enlisted, so the assertion in push() protects the list. */
  lemma CallPushInv(c: State, t: Tid, n: Node)
    requires Inv(c) && Enabled(c, CallPush(t, n))
    ensures n !in c.listed
    ensures Inv(Move(c, t, PushLoad(n)))
  {
    var d := Move(c, t, PushLoad(n));
    forall u | u in d.pcs ensures PcOk(d, d.pcs[u]) {
      if u != t { assert PcOk(c, c.pcs[u]); }
    }
  }

  lemma InterfereInv(c: State, n: Node, p: Ptr)
    requires Inv(c) && Enabled(c, Interfere(n, p))
    ensures Inv(Apply(c, Interfere(n, p)))
  {
    var d := Apply(c, Interfere(n, p));
    forall u | u in d.pcs ensures PcOk(d, d.pcs[u]) {
      StoreKeepsPc(c, n, p, c.pcs[u]);
    }
  }

  // ---------------------------------------------------------------------------------------------
  // Linearizability
  // ---------------------------------------------------------------------------------------------

  /** A pop that has seen TAIL_ is already decided; all other operations are decided by their
      successful compare-and-swap. */
  function AbsPc(pc: Pc): AtomicOp {
    match pc
    case Idle => Free
    case PushLoad(n) => Pending(Push(n))
    case PushStore(n, _) => Pending(Push(n))
    case PushCas(n, _) => Pending(Push(n))
    case PushDone(n, e) => Done(Push(n), WasEmpty(e))
    case PopLoad => Pending(Pop)
    case PopTest(seen) => if seen.next == Tail then Done(Pop, Popped(None)) else Pending(Pop)
    case PopRead(_) => Pending(Pop)
    case PopCas(_, _) => Pending(Pop)
    case PopClear(n) => Done(Pop, Popped(Some(n)))
    case PopDone(r) => Done(Pop, Popped(r))
  }

  function Abs(c: State): Atomic {
    Atomic(c.listed, map t | t in c.pcs :: AbsPc(c.pcs[t]))
  }

  /** The atomic steps, at most one, that a concrete step stands for. */
  function Matching(c: State, s: Step): seq<AtomicStep>
    requires Enabled(c, s)
  {
    match s
    case CallPush(t, n) => [Call(t, Push(n))]
    case CallPop(t) => [Call(t, Pop)]
    case Interfere(_, _) => []
    case Advance(t) => MatchingThread(c, t, Apply(c, s))
    case SpuriousFail(t) => MatchingThread(c, t, Apply(c, s))
  }

  function MatchingThread(c: State, t: Tid, d: State): seq<AtomicStep>
    requires t in c.pcs
  {
    var before := AbsPc(c.pcs[t]);
    var after := if t in d.pcs then AbsPc(d.pcs[t]) else Free;
    if before.Pending? && after.Done? then [Effect(t)]
    else if before.Done? && after.Free? then [Return(t)]
    else []
  }

  ghost function Linearization(c: State, steps: seq<Step>): seq<AtomicStep>
    requires IsRun(c, steps)
    decreases |steps|
  {
    if steps == [] then [] else
      Matching(c, steps[0]) + Linearization(Apply(c, steps[0]), steps[1..])
  }

  ghost function AtomicFinal(a: Atomic, steps: seq<AtomicStep>): Atomic
    requires IsAtomicRun(a, steps)
    decreases |steps|
  {
    if steps == [] then a else AtomicFinal(AtomicApply(a, steps[0]), steps[1..])
  }

  lemma AbsMove(c: State, t: Tid, pc: Pc)
    requires t in c.pcs
    ensures Abs(Move(c, t, pc)).ops == Abs(c).ops[t := AbsPc(pc)]
  {
  }

  lemma AbsTop(c: State)
    requires Inv(c)
    ensures c.head.next == Tail <==> Abs(c).stack == []
  {
  }

  ghost predicate Simulates(c: State, s: Step, d: State, m: seq<AtomicStep>)
    requires Enabled(c, s)
  {
    || (m == [] && Abs(d) == Abs(c) && StepEvent(c, s) == [])
    || (&& |m| == 1 && AtomicEnabled(Abs(c), m[0])
        && Abs(d) == AtomicApply(Abs(c), m[0])
        && StepEvent(c, s) == AtomicEvent(Abs(c), m[0]))
  }

  /** The abstract operations after thread t moved to a new program counter. */
  lemma AbsStay(c: State, d: State, t: Tid)
    requires t in c.pcs && t in d.pcs && d.pcs == c.pcs[t := d.pcs[t]]
    ensures Abs(d).ops == Abs(c).ops[t := AbsPc(d.pcs[t])]
    ensures AbsPc(d.pcs[t]) == AbsPc(c.pcs[t]) ==> Abs(d).ops == Abs(c).ops
  {
  }

  lemma LocalPushSimulates(c: State, t: Tid)
    requires Inv(c) && Enabled(c, Advance(t))
    requires c.pcs[t].PushLoad? || c.pcs[t].PushStore? || c.pcs[t].PushDone?
    ensures Simulates(c, Advance(t), AdvanceThread(c, t), MatchingThread(c, t, AdvanceThread(c, t)))
  {
    hide Linked, Exclusive;
    AbsStay(c, AdvanceThread(c, t), t);
  }

  lemma LocalPopSimulates(c: State, t: Tid)
    requires Inv(c) && Enabled(c, Advance(t))
    requires c.pcs[t].PopLoad? || c.pcs[t].PopTest? || c.pcs[t].PopRead? || c.pcs[t].PopClear? || c.pcs[t].PopDone?
    ensures Simulates(c, Advance(t), AdvanceThread(c, t), MatchingThread(c, t, AdvanceThread(c, t)))
  {
    hide Linked, Exclusive;
    AbsTop(c);
    assert PcOk(c, c.pcs[t]);
    AbsStay(c, AdvanceThread(c, t), t);
  }

  lemma PushCasSimulates(c: State, t: Tid)
    requires Inv(c) && Enabled(c, Advance(t)) && c.pcs[t].PushCas?
    ensures Simulates(c, Advance(t), AdvanceThread(c, t), MatchingThread(c, t, AdvanceThread(c, t)))
  {
    hide Exclusive;
    AbsTop(c);
    assert PcOk(c, c.pcs[t]);
    AbsStay(c, AdvanceThread(c, t), t);
  }

  lemma PopCasSimulates(c: State, t: Tid)
    requires Inv(c) && Enabled(c, Advance(t)) && c.pcs[t].PopCas?
    ensures Simulates(c, Advance(t), AdvanceThread(c, t), MatchingThread(c, t, AdvanceThread(c, t)))
  {
    hide Exclusive;
    AbsTop(c);
    assert PcOk(c, c.pcs[t]);
    AbsStay(c, AdvanceThread(c, t), t);
    if c.head == c.pcs[t].seen { PopInv(c, t); }
  }

  lemma AdvanceSimulates(c: State, t: Tid)
    requires Inv(c) && Enabled(c, Advance(t))
    ensures Simulates(c, Advance(t), AdvanceThread(c, t), MatchingThread(c, t, AdvanceThread(c, t)))
  {
    hide Linked, Exclusive, Simulates;
    match c.pcs[t]
    case Idle =>
    case PushLoad(_) => LocalPushSimulates(c, t);
    case PushStore(_, _) => LocalPushSimulates(c, t);
    case PushCas(_, _) => PushCasSimulates(c, t);
    case PushDone(_, _) => LocalPushSimulates(c, t);
    case PopCas(_, _) => PopCasSimulates(c, t);
    case _ => LocalPopSimulates(c, t);
  }

  /** One concrete step is no atomic step or one, with the same result and the same event. */
  lemma StepSimulates(c: State, s: Step)
    requires Inv(c) && Enabled(c, s)
    ensures Simulates(c, s, Apply(c, s), Matching(c, s))
  {
    var a := Abs(c);
    match s
    case CallPush(t, n) => AbsMove(c, t, PushLoad(n));
    case CallPop(t) => AbsMove(c, t, PopLoad);
    case Interfere(n, p) =>
    case Advance(t) => AdvanceSimulates(c, t);
    case SpuriousFail(t) =>
      var d := Reload(c, t);
      AbsTop(c);
      assert PcOk(c, c.pcs[t]);
      AbsMove(c, t, d.pcs[t]);
      assert AbsPc(d.pcs[t]) == a.ops[t] ==> Abs(d).ops == a.ops;
  }

  /** No atomic step or one in front of a run of the atomic stack. */
  lemma PrependMatch(a: Atomic, m: seq<AtomicStep>, b: Atomic, rest: seq<AtomicStep>, event: seq<Event>)
    requires (m == [] && b == a && event == [])
             || (|m| == 1 && AtomicEnabled(a, m[0]) && b == AtomicApply(a, m[0]) && event == AtomicEvent(a, m[0]))
    requires IsAtomicRun(b, rest)
    ensures IsAtomicRun(a, m + rest)
    ensures AtomicFinal(a, m + rest) == AtomicFinal(b, rest)
    ensures AtomicHistory(a, m + rest) == event + AtomicHistory(b, rest)
  {
    hide AtomicEnabled, AtomicApply, AtomicEvent;
    if m == [] {
      assert m + rest == rest;
    } else {
      assert (m + rest)[0] == m[0] && (m + rest)[1..] == rest;
    }
  }

  /** Every run of the CAS loops is a run of the atomic stack with the same calls and returns. */
  lemma {:induction false} Linearizable(c: State, steps: seq<Step>)
    requires Inv(c) && IsRun(c, steps)
    ensures IsAtomicRun(Abs(c), Linearization(c, steps))
    ensures AtomicFinal(Abs(c), Linearization(c, steps)) == Abs(Final(c, steps))
    ensures AtomicHistory(Abs(c), Linearization(c, steps)) == History(c, steps)
    ensures Inv(Final(c, steps))
    decreases |steps|
  {
    hide Inv, Abs, Enabled, Apply, Matching, StepEvent, AtomicEnabled, AtomicApply, AtomicEvent;
    if steps != [] {
      var d := Apply(c, steps[0]);
      StepInv(c, steps[0]);
      StepSimulates(c, steps[0]);
      Linearizable(d, steps[1..]);
      PrependMatch(Abs(c), Matching(c, steps[0]), Abs(d), Linearization(d, steps[1..]), StepEvent(c, steps[0]));
    }
  }

  lemma AbsStack(c: State)
    ensures Abs(c).stack == c.listed
  {
  }

  /** The main result, for a run that starts with an empty stack and idle threads: the atomic steps
      of the linearization form a run of the atomic stack from empty with the same history. */
  lemma PushPopLinearizable(c: State, steps: seq<Step>)
    requires Init(c) && IsRun(c, steps)
    ensures var a := Atomic([], map t | t in c.pcs :: Free);
            && IsAtomicRun(a, Linearization(c, steps))
            && AtomicHistory(a, Linearization(c, steps)) == History(c, steps)
            && AtomicFinal(a, Linearization(c, steps)).stack == Final(c, steps).listed
  {
    hide Inv, IsAtomicRun, AtomicHistory, AtomicFinal, Linearization, History, IsRun, Final;
    InitInv(c);
    Linearizable(c, steps);
    assert Abs(c).ops == map t | t in c.pcs :: Free;
    AbsStack(Final(c, steps));
  }

  /** The assertions of push() and pop() hold in every run: the head is never null, and the node a
      pop is about to read was pushed before. */
  lemma HeadNeverNull(c: State, steps: seq<Step>)
    requires Init(c) && IsRun(c, steps)
    ensures var d := Final(c, steps);
            && d.head.next != Null
            && (forall t :: t in d.pcs && d.pcs[t].PopRead? ==>
                  d.pcs[t].seen.next.Ref? && d.pcs[t].seen.next.node in d.pushed)
  {
    InitInv(c);
    Linearizable(c, steps);
    var d := Final(c, steps);
    forall t | t in d.pcs && d.pcs[t].PopRead?
      ensures d.pcs[t].seen.next.Ref? && d.pcs[t].seen.next.node in d.pushed
    {
      assert PcOk(d, d.pcs[t]);
    }
  }

  // ---------------------------------------------------------------------------------------------
  // A thread alone
  // ---------------------------------------------------------------------------------------------

  /** How many steps an operation still needs when no other thread interferes. */
  function Rank(c: State, pc: Pc): nat {
    match pc
    case Idle => 0
    case PushLoad(_) => 4
    case PushStore(_, seen) => if c.head == seen then 3 else 5
    case PushCas(_, seen) => if c.head == seen then 2 else 4
    case PushDone(_, _) => 1
    case PopLoad => 6
    case PopTest(seen) => if c.head == seen then 5 else 8
    case PopRead(seen) => if c.head == seen then 4 else 7
    case PopCas(seen, _) => if c.head == seen then 3 else 6
    case PopClear(_) => 2
    case PopDone(_) => 1
  }

  /** One step in front of a run. */
  lemma Cons(c: State, s: Step, rest: seq<Step>) returns (steps: seq<Step>)
    requires Enabled(c, s) && IsRun(Apply(c, s), rest)
    ensures steps == [s] + rest && IsRun(c, steps) && Final(c, steps) == Final(Apply(c, s), rest)
    ensures History(c, steps) == StepEvent(c, s) + History(Apply(c, s), rest)
  {
    steps := [s] + rest;
    assert steps[1..] == rest;
  }

  lemma Nothing(c: State)
    ensures IsRun(c, []) && Final(c, []) == c && History(c, []) == []
  {
  }

  /** A push that is alone takes effect and returns. */
  lemma {:induction false} PushAlone(c: State, t: Tid, n: Node) returns (steps: seq<Step>)
    requires Inv(c) && t in c.pcs && Pushing(c.pcs[t], n)
    ensures IsRun(c, steps) && |steps| <= Rank(c, c.pcs[t]) && forall s :: s in steps ==> s == Advance(t)
    ensures var d := Final(c, steps);
            && d.pcs == c.pcs[t := Idle] && d.listed == [n] + c.listed
            && History(c, steps) == [Returned(t, Push(n), WasEmpty(c.listed == []))]
    decreases Rank(c, c.pcs[t])
  {
    hide Linked, Exclusive, IsRun, Final, History;
    var d := AdvanceThread(c, t);
    StepInv(c, Advance(t));
    if d.pcs[t].PushDone? {
      AbsTop(c);
      Nothing(AdvanceThread(d, t));
      steps := Cons(d, Advance(t), []);
    } else {
      steps := PushAlone(d, t, n);
    }
    steps := Cons(c, Advance(t), steps);
  }

  /** What a pop that has not taken effect yet will return, and what it leaves. */
  function Top(c: State): Option<Node> { if c.listed == [] then None else Some(c.listed[0]) }

  function Below(c: State): seq<Node> { if c.listed == [] then [] else c.listed[1..] }

  /** A pop that is still to take effect: it has not found the stack empty, unless it is. */
  predicate Undecided(c: State, pc: Pc) {
    pc.PopLoad? || pc.PopRead? || pc.PopCas? || (pc.PopTest? && (pc.seen.next.Ref? || c.listed == []))
  }

  /** A pop that is alone takes effect and returns. */
  lemma {:induction false} PopAlone(c: State, t: Tid) returns (steps: seq<Step>)
    requires Inv(c) && t in c.pcs && Undecided(c, c.pcs[t])
    ensures IsRun(c, steps) && |steps| <= Rank(c, c.pcs[t]) && forall s :: s in steps ==> s == Advance(t)
    ensures var d := Final(c, steps);
            && d.pcs == c.pcs[t := Idle] && d.listed == Below(c)
            && History(c, steps) == [Returned(t, Pop, Popped(Top(c)))]
    decreases Rank(c, c.pcs[t])
  {
    hide Inv, IsRun, Final, History, AdvanceThread, Undecided;
    if Decides(c, c.pcs[t]) {
      steps := PopTakes(c, t);
    } else {
      PopMoves(c, t);
      StepInv(c, Advance(t));
      steps := PopAlone(AdvanceThread(c, t), t);
      steps := Cons(c, Advance(t), steps);
    }
  }

  predicate Decides(c: State, pc: Pc) {
    (pc.PopTest? && pc.seen.next == Tail) || (pc.PopCas? && c.head == pc.seen)
  }

  lemma PopMoves(c: State, t: Tid)
    requires Inv(c) && t in c.pcs && Undecided(c, c.pcs[t]) && !Decides(c, c.pcs[t])
    ensures var d := AdvanceThread(c, t);
            && d.listed == c.listed && t in d.pcs && d.pcs == c.pcs[t := d.pcs[t]] && Undecided(d, d.pcs[t])
            && Rank(d, d.pcs[t]) < Rank(c, c.pcs[t]) && StepEvent(c, Advance(t)) == []
  {
    hide Exclusive;
    assert PcOk(c, c.pcs[t]);
    AbsTop(c);
  }

  lemma PopTakes(c: State, t: Tid) returns (steps: seq<Step>)
    requires Inv(c) && t in c.pcs && Undecided(c, c.pcs[t]) && Decides(c, c.pcs[t])
    ensures IsRun(c, steps) && |steps| <= Rank(c, c.pcs[t]) && forall s :: s in steps ==> s == Advance(t)
    ensures var d := Final(c, steps);
            && d.pcs == c.pcs[t := Idle] && d.listed == Below(c)
            && History(c, steps) == [Returned(t, Pop, Popped(Top(c)))]
  {
    hide Exclusive, IsRun, Final, History;
    var d := AdvanceThread(c, t);
    if c.pcs[t].PopTest? {
      steps := Leave(d, t);
    } else {
      PopInv(c, t);
      steps := Leave(AdvanceThread(d, t), t);
      steps := Cons(d, Advance(t), steps);
    }
    steps := Cons(c, Advance(t), steps);
  }

  lemma Leave(c: State, t: Tid) returns (steps: seq<Step>)
    requires t in c.pcs && c.pcs[t].PopDone?
    ensures steps == [Advance(t)] && IsRun(c, steps) && Final(c, steps) == Move(c, t, Idle)
    ensures History(c, steps) == [Returned(t, Pop, Popped(c.pcs[t].popped))]
  {
    hide IsRun, Final, History;
    Nothing(Move(c, t, Idle));
    steps := Cons(c, Advance(t), []);
  }
}
