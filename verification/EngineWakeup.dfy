/**
 The engine thread inside its event loop: driver_dispatcher() is asked during the prepare and check
 phases, poll() sleeps on the wakeup eventfd in between, and the dispatch phase runs the job queues of
 module EngineJobs. Producers signal the eventfd only when their push found the queue empty.
 */
module EngineWakeup {
  import opened Basics
  import opened LinkedLists
  import J = EngineJobs
  import L = LoopScheduler

  /**
   Where the engine thread is in one iteration. Prep and Check steps are the single tests of
   driver_dispatcher(); `polled` tells if the driver source was collected for this iteration.
   */
  datatype Loop =
    | Collect
    | PrepQuit
    | PrepConst
    | PrepAsync
    | PrepStamp
    | Poll(block: bool, polled: bool)
    | Flush(readable: bool, polled: bool)
    | CheckQuit(polled: bool)
    | CheckConst
    | CheckAsync
    | CheckStamp
    | Decide(ready: bool)
    | Write
    | TestRender
    | RenderJobs
    | Render
    | WriteAgain
    | TestConst
    | AsyncFirst
    | ConstJobs
    | Finish

  datatype State = State(jobs: J.State, loop: Loop, fd: bool, quit: bool, write: int, render: int)

  /** What the environment decides for a step of the engine thread: if the driver can take a block,
      if another source is ready or due, the stamps a job leaves behind, and the sources of the loop. */
  datatype Input = Input(canWrite: bool, others: bool, write: int, render: int, gathered: Gathered)

  /** The sources of the engine's loop when an iteration starts, which of them are polled, what these answer in the
      prepare phase, which one is the driver source, and the shortest timeout. */
  datatype Gathered = Gathered(sources: seq<L.Source>, top: int, list: seq<nat>, prepares: nat -> L.Answer,
                               driver: nat, usecs: nat) {
    ghost predicate Collected() {
      && L.LegalSources(sources) && L.Top(sources, top) && L.Listed(sources, top, list) && L.LegalReplies(prepares)
      && driver < |sources| && sources[driver].attached
    }

    /** The dispatch priority after the prepare phase. */
    function Raised(): int { L.PreparedAll(L.Phase(sources, top, {}), list, prepares, |list|).priority }

    /** The driver source is asked if it is polled; if not, poll() comes next. */
    function Begins(): Loop {
      if L.Polled(sources, top, driver) then PrepQuit
      else Poll(L.PollTimeout(true, Raised() > L.UNDEFINED, usecs) > 0, false)
    }
  }

  datatype Step =
    | Elsewhere(s: J.Step)
    | Wakeup
    | Quit
    | Turn(input: Input)

  const BLOCK := 128

  ghost predicate Enabled(c: State, s: Step) {
    match s
    case Elsewhere(j) => (j.NewJob? || j.Produce? || j.StartDispatch? || j.Dispatch?) && J.Enabled(c.jobs, j)
    case Wakeup => true
    case Quit => true
    case Turn(i) => (c.loop.Poll? && c.loop.block ==> c.fd || i.others) && (c.loop.Collect? ==> i.gathered.Collected())
  }

  predicate Processing(l: Loop) {
    l.RenderJobs? || l.AsyncFirst? || l.ConstJobs?
  }

  function AfterJobs(l: Loop): Loop {
    if l.RenderJobs? then Render else Finish
  }

  function Begin(c: State, l: Loop, q: J.Queue): State {
    c.(loop := l, jobs := c.jobs.(engine := J.PopLoad(q)))
  }

  function CheckWrite(c: State, i: Input): int {
    if i.canWrite && c.write < c.render then c.write + BLOCK else c.write
  }

  function ApplyTurn(c: State, i: Input): State {
    match c.loop
    case Collect => c.(loop := i.gathered.Begins())
    case PrepQuit => c.(loop := if c.quit then Poll(!i.others, true) else PrepConst)
    case PrepConst =>
      c.(loop := if J.Head(c.jobs, J.Queued(J.ConstJobs)).Ref? then Poll(false, true) else PrepAsync)
    case PrepAsync =>
      c.(loop := if J.Head(c.jobs, J.Queued(J.AsyncJobs)).Ref? then Poll(false, true) else PrepStamp)
    case PrepStamp =>
      c.(loop := Poll(!(c.render <= c.write || i.canWrite || i.others), true))
    case Poll(_, polled) => c.(loop := Flush(c.fd, polled))
    case Flush(readable, polled) => c.(loop := CheckQuit(polled), fd := c.fd && !readable)
    case CheckQuit(polled) => c.(loop := if !polled || c.quit then Decide(false) else CheckConst)
    case CheckConst =>
      c.(loop := if J.Head(c.jobs, J.Queued(J.ConstJobs)).Ref? then Decide(true) else CheckAsync)
    case CheckAsync =>
      c.(loop := if J.Head(c.jobs, J.Queued(J.AsyncJobs)).Ref? then Decide(true) else CheckStamp)
    case CheckStamp => c.(loop := Decide(c.render <= c.write || i.canWrite))
    case Decide(ready) => c.(loop := if ready && !i.others then Write else Collect)
    case Write => c.(loop := TestRender, write := CheckWrite(c, i))
    case TestRender => if c.render <= c.write then Begin(c, RenderJobs, J.AsyncJobs) else c.(loop := TestConst)
    case Render => c.(loop := WriteAgain, render := if c.render <= c.write then c.render + BLOCK else c.render)
    case WriteAgain => c.(loop := TestConst, write := CheckWrite(c, i))
    case TestConst =>
      if J.Head(c.jobs, J.Queued(J.ConstJobs)).Ref? then Begin(c, AsyncFirst, J.AsyncJobs) else c.(loop := Finish)
    case Finish => c.(loop := Collect)
    case l =>
      if !c.jobs.engine.Resting? then
        c.(jobs := J.ApplyProcess(c.jobs),
           write := if RunsJob(c.jobs) then i.write else c.write,
           render := if RunsJob(c.jobs) then i.render else c.render)
      else if l.AsyncFirst? then Begin(c, ConstJobs, J.ConstJobs)
      else c.(loop := AfterJobs(l))
  }

  predicate RunsJob(jobs: J.State) { jobs.engine.Run? && jobs.engine.job.Ref? }

  predicate Wakes(jobs: J.State, j: J.Step) {
    j.Produce? && j.t in jobs.producers && jobs.producers[j.t].Wake?
  }

  function Apply(c: State, s: Step): State
    requires Enabled(c, s)
  {
    match s
    case Elsewhere(j) => c.(jobs := J.Apply(c.jobs, j), fd := c.fd || Wakes(c.jobs, j))
    case Wakeup => c.(fd := true)
    case Quit => c.(quit := true)
    case Turn(i) => ApplyTurn(c, i)
  }

  predicate Init(c: State) {
    J.Init(c.jobs) && c.loop == Collect && !c.fd && !c.quit
  }

  ghost predicate IsRun(c: State, steps: seq<Step>)
    decreases |steps|
  {
    steps == [] || (Enabled(c, steps[0]) && IsRun(Apply(c, steps[0]), steps[1..]))
  }

  ghost function Final(c: State, steps: seq<Step>): State
    requires IsRun(c, steps)
    decreases |steps|
  {
    if steps == [] then c else Final(Apply(c, steps[0]), steps[1..])
  }

  /** The loop has seen queue q empty and will sleep, or sleeps, on the strength of that. */
  predicate Relied(l: Loop, q: J.Queue) {
    match l
    case PrepAsync => q == J.ConstJobs
    case PrepStamp => true
    case Poll(block, _) => block
    case _ => false
  }

  ghost predicate Signalled(c: State, q: J.Queue) {
    c.fd || exists t :: t in c.jobs.producers && c.jobs.producers[t] == J.Wake(q)
  }

  ghost predicate Inv(c: State) {
    && J.Inv(c.jobs)
    && (c.jobs.engine.Resting? || Processing(c.loop))
    && (c.loop.Poll? && c.loop.block ==> c.loop.polled)
    && (!c.quit ==> forall q :: Relied(c.loop, q) && J.Head(c.jobs, J.Queued(q)).Ref? ==> Signalled(c, q))
  }

  /** The loop does not block after leaving the driver source unpolled: what keeps it out has a priority that needs
      dispatching. */
  lemma UnpolledNoBlock(g: Gathered)
    requires g.Collected()
    ensures g.Begins() == PrepQuit || g.Begins() == Poll(false, false)
  {
    L.PreparedAllOk(g.sources, g.top, g.list, g.prepares, |g.list|);
  }

  /** A turn of the engine thread is at most one step of the job machine. */
  lemma TurnJobs(c: State, i: Input)
    requires J.Inv(c.jobs) && (c.jobs.engine.Resting? || Processing(c.loop))
    ensures J.Inv(ApplyTurn(c, i).jobs)
  {
    hide J.Inv;
    if c.loop.TestRender? || c.loop.TestConst? || c.jobs.engine.Resting? {
      J.StepInv(c.jobs, J.StartProcess(J.AsyncJobs));
      J.StepInv(c.jobs, J.StartProcess(J.ConstJobs));
    } else {
      J.StepInv(c.jobs, J.Process);
    }
  }

  /** Only the prepare phase ends up relying on a queue, and it moves nothing but the loop. */
  lemma TurnTests(c: State, i: Input, q: J.Queue)
    requires Relied(ApplyTurn(c, i).loop, q) && (c.loop.Collect? ==> i.gathered.Collected())
    ensures c.loop.PrepQuit? || c.loop.PrepConst? || c.loop.PrepAsync? || c.loop.PrepStamp?
    ensures ApplyTurn(c, i) == c.(loop := ApplyTurn(c, i).loop)
  {
    hide J.ApplyProcess, J.Head, Gathered.Begins;
    if c.loop.Collect? { UnpolledNoBlock(i.gathered); }
  }

  /** A turn that ends relying on an empty queue tested that queue or already relied on it. */
  lemma TurnRelies(c: State, i: Input, q: J.Queue)
    requires Relied(ApplyTurn(c, i).loop, q) && !c.quit
    requires c.loop.PrepQuit? || c.loop.PrepConst? || c.loop.PrepAsync? || c.loop.PrepStamp?
    ensures Relied(c.loop, q) || J.Head(c.jobs, J.Queued(q)).Null?
  {
    hide J.ApplyProcess;
  }

  lemma TurnLoop(c: State, i: Input)
    requires (c.jobs.engine.Resting? || Processing(c.loop)) && (c.loop.Collect? ==> i.gathered.Collected())
    ensures ApplyTurn(c, i).jobs.engine.Resting? || Processing(ApplyTurn(c, i).loop)
    ensures ApplyTurn(c, i).loop.Poll? && ApplyTurn(c, i).loop.block ==> ApplyTurn(c, i).loop.polled
    ensures ApplyTurn(c, i).quit == c.quit
  {
    hide J.ApplyProcess, J.Head, Gathered.Begins;
    if c.loop.Collect? { UnpolledNoBlock(i.gathered); }
  }

  lemma TurnInv(c: State, i: Input)
    requires Inv(c) && Enabled(c, Turn(i))
    ensures Inv(ApplyTurn(c, i))
  {
    hide J.Inv, ApplyTurn, Relied, Processing;
    TurnJobs(c, i);
    TurnLoop(c, i);
    var d := ApplyTurn(c, i);
    if !d.quit {
      forall q | Relied(d.loop, q) && J.Head(d.jobs, J.Queued(q)).Ref? ensures Signalled(d, q) {
        TurnTests(c, i, q);
        TurnRelies(c, i, q);
        assert Signalled(c, q);
      }
    }
  }

  /** The push that makes a queue non-empty is the push whose producer will wake the engine. */
  lemma ProduceSignals(c: State, t: J.Tid, q: J.Queue)
    requires t in c.jobs.producers && J.Enabled(c.jobs, J.Produce(t))
    requires J.Head(c.jobs, J.Queued(q)).Ref? ==> Signalled(c, q)
    requires J.Head(J.ApplyProduce(c.jobs, t), J.Queued(q)).Ref?
    ensures Signalled(c.(jobs := J.ApplyProduce(c.jobs, t), fd := c.fd || c.jobs.producers[t].Wake?), q)
  {
    hide J.Carries;
    var e := J.ApplyProduce(c.jobs, t);
    var p := c.jobs.producers[t];
    assert e.heads == c.jobs.heads || (p.Cas? && J.Head(c.jobs, J.Queued(p.q)) == p.seen);
    if J.Head(c.jobs, J.Queued(q)).Ref? {
      if !c.fd {
        var u :| u in c.jobs.producers && c.jobs.producers[u] == J.Wake(q);
        assert u != t ==> u in e.producers && e.producers[u] == J.Wake(q);
      }
    } else {
      assert e.producers[t] == J.Wake(q);
    }
  }

  lemma ElsewhereInv(c: State, j: J.Step)
    requires Inv(c) && Enabled(c, Elsewhere(j))
    ensures Inv(Apply(c, Elsewhere(j)))
  {
    hide J.Inv;
    var d := Apply(c, Elsewhere(j));
    J.StepInv(c.jobs, j);
    if !d.quit {
      forall q | Relied(d.loop, q) && J.Head(d.jobs, J.Queued(q)).Ref? ensures Signalled(d, q) {
        if j.Produce? {
          ProduceSignals(c, j.t, q);
        } else {
          OthersKeepQueues(c.jobs, j, q);
          if !c.fd {
            var u :| u in c.jobs.producers && c.jobs.producers[u] == J.Wake(q);
            assert u in d.jobs.producers && d.jobs.producers[u] == J.Wake(q);
          }
        }
      }
    }
  }

  lemma OthersKeepQueues(jobs: J.State, j: J.Step, q: J.Queue)
    requires J.Enabled(jobs, j) && (j.NewJob? || j.StartDispatch? || j.Dispatch?)
    ensures J.Head(J.Apply(jobs, j), J.Queued(q)) == J.Head(jobs, J.Queued(q))
    ensures forall u :: u in jobs.producers && jobs.producers[u] == J.Wake(q)
                ==> u in J.Apply(jobs, j).producers && J.Apply(jobs, j).producers[u] == J.Wake(q)
  {
  }

  lemma StepInv(c: State, s: Step)
    requires Inv(c) && Enabled(c, s)
    ensures Inv(Apply(c, s))
  {
    hide J.Inv;
    match s
    case Elsewhere(j) => ElsewhereInv(c, j);
    case Wakeup => assert forall q :: Signalled(Apply(c, s), q);
    case Quit =>
    case Turn(i) => TurnInv(c, i);
  }

  lemma {:induction false} RunInvariant(c: State, steps: seq<Step>)
    requires Inv(c) && IsRun(c, steps)
    ensures Inv(Final(c, steps))
    decreases |steps|
  {
    hide Inv;
    if steps != [] {
      StepInv(c, steps[0]);
      RunInvariant(Apply(c, steps[0]), steps[1..]);
    }
  }

  lemma InitInv(c: State)
    requires Init(c)
    ensures Inv(c)
  {
    hide J.Inv;
    J.InitInv(c.jobs);
  }

  /** No stranded job: while the engine sleeps in poll() with a job queued, its eventfd is set or a
      producer is on its way to set it; and it never sleeps after leaving its source unpolled. */
  lemma NoStrandedJob(c: State, steps: seq<Step>)
    requires Init(c) && IsRun(c, steps)
    ensures var d := Final(c, steps);
            d.loop.Poll? && d.loop.block ==>
              && d.loop.polled
              && (!d.quit ==> forall q :: J.Head(d.jobs, J.Queued(q)).Ref? ==> Signalled(d, q))
  {
    hide J.Inv;
    InitInv(c);
    RunInvariant(c, steps);
    var d := Final(c, steps);
    assert forall q :: d.loop.Poll? && d.loop.block ==> Relied(d.loop, q);
  }

  /** Once the producers are done and the engine sleeps undisturbed, every job ever pushed has run,
      in the order of the pushes to its queue. */
  lemma SleepMeansDone(c: State, steps: seq<Step>)
    requires Init(c) && IsRun(c, steps)
    ensures var d := Final(c, steps);
            d.loop.Poll? && d.loop.block && !d.quit && !d.fd
            && (forall t :: t in d.jobs.producers ==> d.jobs.producers[t].Idle?)
            ==> forall q :: d.jobs.book.ran.Of(q) == d.jobs.book.pushed.Of(q)
  {
    hide J.Shape, J.Accounted, J.Numbered;
    InitInv(c);
    RunInvariant(c, steps);
    var d := Final(c, steps);
    if d.loop.Poll? && d.loop.block && !d.quit && !d.fd
       && (forall t :: t in d.jobs.producers ==> d.jobs.producers[t].Idle?) {
      forall q ensures d.jobs.book.ran.Of(q) == d.jobs.book.pushed.Of(q) {
        assert Relied(d.loop, q) && !Signalled(d, q);
        J.DrainedQueue(d.jobs, q);
      }
    }
  }

  lemma {:induction false} Extend(c: State, steps: seq<Step>, s: Step)
    requires IsRun(c, steps) && Enabled(Final(c, steps), s)
    ensures IsRun(c, steps + [s]) && Final(c, steps + [s]) == Apply(Final(c, steps), s)
    decreases |steps|
  {
    hide Enabled, Apply;
    if steps == [] {
      assert (steps + [s])[1..] == [];
    } else {
      Extend(Apply(c, steps[0]), steps[1..], s);
      assert (steps + [s])[1..] == steps[1..] + [s];
    }
  }

  /** Once the program quits, jobs can be stranded: the engine takes the wakeup and goes back to sleep. */
  lemma QuitStrands() returns (c: State, steps: seq<Step>)
    ensures Init(c) && IsRun(c, steps)
    ensures var d := Final(c, steps);
            && d.quit && d.loop.Poll? && d.loop.block && !d.fd
            && (forall t :: t in d.jobs.producers ==> d.jobs.producers[t].Idle?)
            && J.Head(d.jobs, J.Queued(J.AsyncJobs)).Ref? && d.jobs.engine.Resting?
  {
    hide IsRun, Final;
    var none := J.State(map[], map[], map[0 := J.Idle], J.Resting, J.Waiting,
                        J.Book(map[], 0, J.Log([], []), J.Log([], []), []), map[], 0);
    c := State(none, Collect, false, false, 0, 0);
    steps := [];
    Begun(c);
    steps := Add(c, steps, Quit, c.(quit := true));
    steps := Push(c, steps);
    steps := Sleep(c, steps);
    var i := Idling();
    var d := Final(c, steps);
    steps := Add(c, steps, Turn(i), d.(loop := Flush(true, true)));
    steps := Add(c, steps, Turn(i), d.(loop := CheckQuit(true), fd := false));
    steps := Add(c, steps, Turn(i), d.(loop := Decide(false), fd := false));
    steps := Add(c, steps, Turn(i), d.(loop := Collect, fd := false));
    steps := Sleep(c, steps);
  }

  lemma Begun(c: State)
    ensures IsRun(c, []) && Final(c, []) == c
  {
  }

  lemma Add(c: State, steps: seq<Step>, s: Step, d: State) returns (more: seq<Step>)
    requires IsRun(c, steps) && Enabled(Final(c, steps), s) && Apply(Final(c, steps), s) == d
    ensures more == steps + [s] && IsRun(c, more) && Final(c, more) == d
  {
    Extend(c, steps, s);
    more := steps + [s];
  }

  /** A turn in which nothing but the driver source is there, and nothing is ready. */
  lemma Idling() returns (i: Input)
    ensures i.gathered.Collected() && i.gathered.Begins() == PrepQuit && !i.others
  {
    var no := (k: nat) => L.Answer(false, L.Change({}, []));
    var sources := [L.Source(500, L.Waiting, true)];
    i := Input(false, false, 0, 0, Gathered(sources, L.UNDEFINED, [0], no, 0, 0));
    assert L.Listed(sources, L.UNDEFINED, [0]);
    assert L.LegalReplies(no);
  }

  /** Back from Collect to a sleep in poll(). */
  lemma Sleep(c: State, steps: seq<Step>) returns (more: seq<Step>)
    requires IsRun(c, steps) && Final(c, steps).loop == Collect && Final(c, steps).quit
    ensures IsRun(c, more) && Final(c, more) == Final(c, steps).(loop := Poll(true, true))
  {
    hide IsRun, Final, Gathered.Collected, Gathered.Begins, J.ApplyProcess;
    var d := Final(c, steps);
    var i := Idling();
    more := Add(c, steps, Turn(i), d.(loop := PrepQuit));
    more := Add(c, more, Turn(i), d.(loop := Poll(true, true)));
  }

  /** A producer pushes a job on the empty queue and sends the wakeup. */
  lemma Push(c: State, steps: seq<Step>) returns (more: seq<Step>)
    requires IsRun(c, steps)
    requires var d := Final(c, steps);
             && d.jobs.producers == map[0 := J.Idle] && d.jobs.next == map[] && d.jobs.heads == map[]
    ensures IsRun(c, more)
    ensures var d := Final(c, more);
            && d.fd && d.jobs.producers == map[0 := J.Idle] && J.Head(d.jobs, J.Queued(J.AsyncJobs)) == Ref(1)
            && d == Final(c, steps).(fd := true, jobs := d.jobs) && d.jobs.engine == Final(c, steps).jobs.engine
  {
    hide IsRun, Final, J.ApplyProcess;
    more := Ready(c, steps);
    var d := Final(c, more);
    var stored := J.ApplyProduce(d.jobs, 0);
    more := Add(c, more, Elsewhere(J.Produce(0)), d.(jobs := stored));
    var pushed := J.ApplyProduce(stored, 0);
    more := Add(c, more, Elsewhere(J.Produce(0)), d.(jobs := pushed));
    assert pushed.producers == map[0 := J.Wake(J.AsyncJobs)];
    var woke := J.Become(pushed, 0, J.Idle);
    more := Add(c, more, Elsewhere(J.Produce(0)), d.(jobs := woke, fd := true));
  }

  /** A producer has made a job and read the head of the empty queue. */
  lemma Ready(c: State, steps: seq<Step>) returns (more: seq<Step>)
    requires IsRun(c, steps)
    requires var d := Final(c, steps);
             && d.jobs.producers == map[0 := J.Idle] && d.jobs.next == map[] && d.jobs.heads == map[]
    ensures IsRun(c, more)
    ensures var d := Final(c, more);
            && d.jobs.producers == map[0 := J.Store(J.AsyncJobs, 1, Null)] && d.jobs.heads == map[]
            && d == Final(c, steps).(jobs := d.jobs) && d.jobs.engine == Final(c, steps).jobs.engine
  {
    hide IsRun, Final, J.ApplyProcess;
    var d := Final(c, steps);
    var made := J.Apply(d.jobs, J.NewJob(0, J.AsyncJobs, 1));
    more := Add(c, steps, Elsewhere(J.NewJob(0, J.AsyncJobs, 1)), d.(jobs := made));
    var checked := J.Become(made, 0, J.Load(J.AsyncJobs, 1));
    more := Add(c, more, Elsewhere(J.Produce(0)), d.(jobs := checked));
    var loaded := J.Become(checked, 0, J.Store(J.AsyncJobs, 1, Null));
    more := Add(c, more, Elsewhere(J.Produce(0)), d.(jobs := loaded));
  }
}
