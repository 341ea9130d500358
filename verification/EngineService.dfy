/**
 Every job runs: process_jobs() serves what was pushed before it started, a dispatch pass serves the queues it
 promises to serve, and the engine thread left to itself comes to that pass in a bounded number of steps.
 */
module EngineService {
  import opened Basics
  import opened LinkedLists
  import J = EngineJobs
  import L = LoopScheduler
  import opened EngineWakeup

  // ----- process_jobs(), whatever other threads do

  /** Jobs P were pushed on queue q, and the pass over q that is under way (or was finished) does not miss them. */
  ghost predicate Serving(jobs: J.State, q: J.Queue, P: seq<nat>) {
    && P <= jobs.book.pushed.Of(q)
    && (|| jobs.engine == J.PopLoad(q)
        || (jobs.engine.PopCas? && jobs.engine.q == q && jobs.engine.seen.Ref?)
        || |P| + |At(jobs.lists, J.Queued(q))| <= |jobs.book.pushed.Of(q)|)
  }

  lemma ProduceServes(jobs: J.State, t: J.Tid, q: J.Queue, P: seq<nat>)
    requires Serving(jobs, q, P) && t in jobs.producers
    ensures Serving(J.ApplyProduce(jobs, t), q, P)
  {
  }

  lemma DispatchServes(jobs: J.State, q: J.Queue, P: seq<nat>)
    requires Serving(jobs, q, P)
    ensures Serving(J.ApplyDispatch(jobs), q, P)
  {
  }

  /** With nothing left on the queue all pushed jobs are taken care of. */
  lemma EmptyHead(jobs: J.State, q: J.Queue)
    requires J.HeadsOk(jobs)
    ensures J.Head(jobs, J.Queued(q)).Null? <==> At(jobs.lists, J.Queued(q)) == []
  {
  }

  lemma ProcessServes(jobs: J.State, q: J.Queue, P: seq<nat>)
    requires J.HeadsOk(jobs) && Serving(jobs, q, P) && !jobs.engine.Resting?
    ensures Serving(J.ApplyProcess(jobs), q, P)
  {
    hide J.HeadsOk;
    EmptyHead(jobs, q);
    ProcessQueues(jobs, q);
  }

  /** What the engine does to the stack of a queue: nothing, unless it pops it. */
  lemma ProcessQueues(jobs: J.State, q: J.Queue)
    ensures var d := J.ApplyProcess(jobs);
            && d.book.pushed == jobs.book.pushed
            && At(d.lists, J.Queued(q)) == if PopsAll(jobs, q) then [] else At(jobs.lists, J.Queued(q))
  {
    J.ProcessBook(jobs);
    if jobs.engine.PopCas? { PopQueues(jobs, q); } else { OtherQueues(jobs, q); }
  }

  predicate PopsAll(jobs: J.State, q: J.Queue) {
    jobs.engine.PopCas? && jobs.engine.q == q && jobs.engine.seen.Ref? && J.Head(jobs, J.Queued(q)) == jobs.engine.seen
  }

  lemma PopQueues(jobs: J.State, q: J.Queue)
    requires jobs.engine.PopCas?
    ensures At(J.ApplyProcess(jobs).lists, J.Queued(q))
            == if PopsAll(jobs, q) then [] else At(jobs.lists, J.Queued(q))
  {
  }

  lemma OtherQueues(jobs: J.State, q: J.Queue)
    requires !jobs.engine.PopCas?
    ensures At(J.ApplyProcess(jobs).lists, J.Queued(q)) == At(jobs.lists, J.Queued(q))
  {
    hide J.ApplyProcess;
    if jobs.engine.RevStore? || jobs.engine.Run? {
      BatchQueues(jobs, q);
    } else if jobs.engine.TrashCas? {
      TrashQueues(jobs, q);
    } else {
      LocalQueues(jobs, q);
    }
  }

  lemma BatchQueues(jobs: J.State, q: J.Queue)
    requires jobs.engine.RevStore? || jobs.engine.Run?
    ensures At(J.ApplyProcess(jobs).lists, J.Queued(q)) == At(jobs.lists, J.Queued(q))
  {
    hide Get, J.Id, J.Log.Add, J.Head;
  }

  lemma TrashQueues(jobs: J.State, q: J.Queue)
    requires jobs.engine.TrashCas?
    ensures At(J.ApplyProcess(jobs).lists, J.Queued(q)) == At(jobs.lists, J.Queued(q))
  {
    hide Get, J.Id, J.Log.Add;
  }

  lemma LocalQueues(jobs: J.State, q: J.Queue)
    requires !jobs.engine.PopCas? && !jobs.engine.RevStore? && !jobs.engine.Run? && !jobs.engine.TrashCas?
    ensures At(J.ApplyProcess(jobs).lists, J.Queued(q)) == At(jobs.lists, J.Queued(q))
  {
    hide Get, J.Id, J.Log.Add, J.Head, J.ShiftedLists;
  }

  lemma JobStepServes(jobs: J.State, s: J.Step, q: J.Queue, P: seq<nat>)
    requires J.HeadsOk(jobs) && J.Enabled(jobs, s) && !s.StartProcess? && Serving(jobs, q, P)
    ensures Serving(J.Apply(jobs, s), q, P)
  {
    hide J.HeadsOk, Serving;
    match s
    case Produce(t) => ProduceServes(jobs, t, q, P);
    case Dispatch => DispatchServes(jobs, q, P);
    case Process => ProcessServes(jobs, q, P);
    case NewJob(_, _, _) => QuietServes(jobs, J.Apply(jobs, s), q, P);
    case StartDispatch => QuietServes(jobs, J.Apply(jobs, s), q, P);
  }

  lemma QuietServes(jobs: J.State, after: J.State, q: J.Queue, P: seq<nat>)
    requires Serving(jobs, q, P)
    requires after.book.pushed == jobs.book.pushed && after.lists == jobs.lists && after.engine == jobs.engine
    ensures Serving(after, q, P)
  {
  }

  /** When the pass is over, the jobs have run. */
  lemma ServedRan(jobs: J.State, q: J.Queue, P: seq<nat>)
    requires J.Inv(jobs) && Serving(jobs, q, P) && jobs.engine.Resting?
    ensures P <= jobs.book.ran.Of(q)
  {
    hide J.Shape, J.Accounted, J.Numbered;
    assert J.Ahead(jobs, q) == Reverse(At(jobs.lists, J.Queued(q)));
    assert jobs.book.pushed.Of(q) == jobs.book.ran.Of(q) + J.Names(jobs.book.ids, J.Ahead(jobs, q));
  }

  /** process_jobs() runs every job pushed before it started, whatever producers and the owner do meanwhile. */
  lemma {:induction false} ProcessRuns(jobs: J.State, steps: seq<J.Step>, q: J.Queue, P: seq<nat>)
    requires J.Inv(jobs) && J.IsRun(jobs, steps) && Serving(jobs, q, P)
    requires forall s :: s in steps ==> !s.StartProcess?
    requires J.Final(jobs, steps).engine.Resting?
    ensures P <= J.Final(jobs, steps).book.ran.Of(q)
    decreases |steps|
  {
    hide J.Inv, Serving;
    if steps == [] {
      ServedRan(jobs, q, P);
    } else {
      assert steps[0] in steps;
      Heads(jobs);
      J.StepInv(jobs, steps[0]);
      JobStepServes(jobs, steps[0], q, P);
      ProcessRuns(J.Apply(jobs, steps[0]), steps[1..], q, P);
    }
  }

  lemma Heads(jobs: J.State)
    requires J.Inv(jobs)
    ensures J.HeadsOk(jobs)
  {
  }

  // ----- producers and the owner alone

  /** A producer left alone ends its push within a few steps, with its job as the last one pushed on its queue. */
  lemma {:induction false} PushEnds(jobs: J.State, t: J.Tid) returns (steps: seq<J.Step>)
    requires t in jobs.producers && (jobs.producers[t].Load? || jobs.producers[t].Store? || jobs.producers[t].Cas?)
    ensures J.IsRun(jobs, steps) && |steps| <= PushRank(jobs, t) && forall s :: s in steps ==> s == J.Produce(t)
    ensures var d, q := J.Final(jobs, steps), jobs.producers[t].q;
            && d.producers == jobs.producers[t := J.Idle] && d.book.ran == jobs.book.ran
            && d.book.pushed == jobs.book.pushed.Add(q, J.Id(jobs, jobs.producers[t].job))
            && J.Head(d, J.Queued(q)) == Ref(jobs.producers[t].job)
    decreases PushRank(jobs, t)
  {
    hide J.Final, J.IsRun;
    var d := J.ApplyProduce(jobs, t);
    NoStep(d);
    if d.producers[t].Idle? {
      steps := [];
    } else if d.producers[t].Wake? {
      NoStep(J.ApplyProduce(d, t));
      steps := FirstStep(d, J.Produce(t), []);
    } else {
      PushMoves(jobs, t);
      steps := PushEnds(d, t);
    }
    steps := FirstStep(jobs, J.Produce(t), steps);
  }

  lemma PushMoves(jobs: J.State, t: J.Tid)
    requires t in jobs.producers && (jobs.producers[t].Load? || jobs.producers[t].Store? || jobs.producers[t].Cas?)
    requires J.ApplyProduce(jobs, t).producers[t].Store? || J.ApplyProduce(jobs, t).producers[t].Cas?
    ensures var d := J.ApplyProduce(jobs, t);
            && d.producers[t].q == jobs.producers[t].q && d.producers[t].job == jobs.producers[t].job
            && d.book == jobs.book && d.heads == jobs.heads && d.producers == jobs.producers[t := d.producers[t]]
            && PushRank(d, t) < PushRank(jobs, t)
  {
    hide Get, At, J.Id, J.Log.Add;
  }

  lemma NoStep(jobs: J.State)
    ensures J.IsRun(jobs, []) && J.Final(jobs, []) == jobs
  {
  }

  lemma FirstStep(jobs: J.State, s: J.Step, rest: seq<J.Step>) returns (steps: seq<J.Step>)
    requires J.Enabled(jobs, s) && J.IsRun(J.Apply(jobs, s), rest)
    ensures steps == [s] + rest && J.IsRun(jobs, steps) && J.Final(jobs, steps) == J.Final(J.Apply(jobs, s), rest)
  {
    steps := [s] + rest;
    assert steps[1..] == rest;
  }

  function PushRank(jobs: J.State, t: J.Tid): nat
    requires t in jobs.producers
  {
    match jobs.producers[t]
    case Load(_, _) => 4
    case Store(q, _, seen) => if J.Head(jobs, J.Queued(q)) == seen then 3 else 5
    case Cas(q, _, seen) => if J.Head(jobs, J.Queued(q)) == seen then 2 else 4
    case _ => 6
  }

  /** The owner left alone ends its dispatch with an empty trash. */
  lemma {:induction false} OwnerEnds(jobs: J.State) returns (steps: seq<J.Step>)
    requires J.Inv(jobs) && !jobs.owner.Waiting?
    ensures J.IsRun(jobs, steps) && |steps| <= OwnerRank(jobs) && forall s :: s in steps ==> s.Dispatch?
    ensures J.Final(jobs, steps).owner.Waiting? && J.Inv(J.Final(jobs, steps))
    ensures jobs.owner.TakeLoad? ==> J.Head(J.Final(jobs, steps), J.Trash).Null?
    ensures J.Head(jobs, J.Trash).Null? ==> J.Head(J.Final(jobs, steps), J.Trash).Null?
    ensures jobs.owner.TakeCas? && jobs.owner.seen.Ref? ==> J.Head(J.Final(jobs, steps), J.Trash).Null?
    decreases OwnerRank(jobs)
  {
    hide J.Inv, J.ApplyDispatch, OwnerRank;
    var d := J.ApplyDispatch(jobs);
    J.StepInv(jobs, J.Dispatch);
    OwnerFalls(jobs);
    if d.owner.Waiting? {
      steps := [];
    } else {
      steps := OwnerEnds(d);
    }
    var rest := steps;
    steps := [J.Dispatch] + rest;
    assert steps[1..] == rest;
  }

  function OwnerRank(jobs: J.State): nat {
    var t := |At(jobs.lists, J.Trash)|;
    match jobs.owner
    case Waiting => 0
    case TakeLoad => 4 + t
    case TakeCas(seen) => if J.Head(jobs, J.Trash) == seen then 2 + t else 3 + t
    case Delete(_) => 1 + |At(jobs.lists, J.Doomed)|
  }

  lemma OwnerFalls(jobs: J.State)
    requires J.Inv(jobs) && !jobs.owner.Waiting?
    ensures var d := J.ApplyDispatch(jobs);
            && OwnerRank(d) < OwnerRank(jobs)
            && (d.owner.TakeLoad? ==> jobs.owner.Waiting?)
            && (jobs.owner.TakeLoad? ==>
                d.owner.TakeCas? && J.Head(d, J.Trash) == J.Head(jobs, J.Trash) == d.owner.seen)
            && (J.Head(jobs, J.Trash).Null? ==> J.Head(d, J.Trash).Null?)
            && (jobs.owner.TakeCas? && jobs.owner.seen.Ref? ==>
                  J.Head(d, J.Trash).Null? || (d.owner.TakeCas? && d.owner.seen.Ref?))
  {
    hide Ok, J.ProducersOk, J.EngineOk, J.InOrder, J.Accounted, J.Numbered;
    if jobs.owner.Delete? && jobs.owner.job.Ref? { DoomedShrinks(jobs); }
  }

  lemma DoomedShrinks(jobs: J.State)
    requires J.Inv(jobs) && jobs.owner.Delete? && jobs.owner.job.Ref?
    ensures OwnerRank(J.ApplyDispatch(jobs)) < OwnerRank(jobs)
    ensures J.ApplyDispatch(jobs).owner.Delete? && J.ApplyDispatch(jobs).heads == jobs.heads
  {
    hide Ok, J.ProducersOk, J.EngineOk, J.InOrder, J.Accounted, J.Numbered;
    J.DeleteHeap(jobs);
  }

  /** A dispatch of the owner alone deletes every job that ran and is not in the hands of the engine. */
  lemma TrashIsDeleted(jobs: J.State) returns (steps: seq<J.Step>)
    requires J.Inv(jobs) && jobs.owner.TakeLoad?
    ensures J.IsRun(jobs, steps) && forall s :: s in steps ==> s.Dispatch?
    ensures var d := J.Final(jobs, steps);
            && d.owner.Waiting? && J.Head(d, J.Trash).Null?
            && (d.engine.Resting? ==>
                  multiset(d.book.deleted) == multiset(d.book.ran.async) + multiset(d.book.ran.consts))
  {
    steps := OwnerEnds(jobs);
  }

  // ----- a dispatch pass, whatever other threads do

  /** Jobs that were on the queues when the pass tested for const jobs, or started to render, and when they are due. */
  ghost predicate InTime(c: State, async: seq<nat>, consts: seq<nat>) {
    && async <= c.jobs.book.pushed.async && consts <= c.jobs.book.pushed.consts
    && (c.loop.RenderJobs? || c.loop.AsyncFirst? ==> Serving(c.jobs, J.AsyncJobs, async))
    && (c.loop.Render? || c.loop.ConstJobs? ==> async <= c.jobs.book.ran.async)
    && (c.loop.ConstJobs? ==> Serving(c.jobs, J.ConstJobs, consts))
    && (c.loop.Finish? ==> consts <= c.jobs.book.ran.consts)
  }

  lemma StepInTime(c: State, s: Step, async: seq<nat>, consts: seq<nat>)
    requires Inv(c) && Enabled(c, s) && InTime(c, async, consts)
    ensures InTime(Apply(c, s), async, consts)
  {
    hide Inv;
    match s
    case Elsewhere(j) => ElsewhereInTime(c, j, async, consts);
    case Wakeup =>
    case Quit =>
    case Turn(i) => TurnInTime(c, i, async, consts);
  }

  lemma LogsGrow(jobs: J.State, s: J.Step, q: J.Queue)
    requires J.Enabled(jobs, s)
    ensures jobs.book.pushed.Of(q) <= J.Apply(jobs, s).book.pushed.Of(q)
    ensures jobs.book.ran.Of(q) <= J.Apply(jobs, s).book.ran.Of(q)
  {
    hide J.ApplyProcess, J.ApplyProduce, J.ApplyDispatch;
    match s
    case Process => ProcessLogs(jobs, q);
    case Produce(t) => ProduceLogs(jobs, t, q);
    case Dispatch => DispatchLogs(jobs, q);
    case _ =>
  }

  lemma ProduceLogs(jobs: J.State, t: J.Tid, q: J.Queue)
    requires t in jobs.producers
    ensures var d := J.ApplyProduce(jobs, t);
            jobs.book.pushed.Of(q) <= d.book.pushed.Of(q) && jobs.book.ran == d.book.ran
  {
    hide Get, At, J.Id;
  }

  lemma DispatchLogs(jobs: J.State, q: J.Queue)
    ensures var d := J.ApplyDispatch(jobs);
            jobs.book.pushed == d.book.pushed && jobs.book.ran == d.book.ran
  {
    hide Get, At, J.Id, J.Head;
  }

  lemma ProcessLogs(jobs: J.State, q: J.Queue)
    ensures var d := J.ApplyProcess(jobs);
            d.book.pushed == jobs.book.pushed && jobs.book.ran.Of(q) <= d.book.ran.Of(q)
  {
    hide Get, J.Head, J.ShiftedLists, At;
    J.ProcessBook(jobs);
    if jobs.engine.Run? && jobs.engine.job.Ref? {
      assert J.ApplyProcess(jobs).book.ran == jobs.book.ran.Add(jobs.engine.q, J.Id(jobs, jobs.engine.job.addr));
    } else {
      J.ProcessKeepsLogs(jobs);
    }
  }

  lemma ElsewhereInTime(c: State, j: J.Step, async: seq<nat>, consts: seq<nat>)
    requires Inv(c) && Enabled(c, Elsewhere(j)) && InTime(c, async, consts)
    ensures InTime(Apply(c, Elsewhere(j)), async, consts)
  {
    hide J.Inv, J.Enabled, J.Apply, Serving;
    Heads(c.jobs);
    LogsGrow(c.jobs, j, J.AsyncJobs);
    LogsGrow(c.jobs, j, J.ConstJobs);
    if Serving(c.jobs, J.AsyncJobs, async) { JobStepServes(c.jobs, j, J.AsyncJobs, async); }
    if Serving(c.jobs, J.ConstJobs, consts) { JobStepServes(c.jobs, j, J.ConstJobs, consts); }
  }

  lemma BeginServes(jobs: J.State, q: J.Queue, P: seq<nat>)
    requires P <= jobs.book.pushed.Of(q)
    ensures Serving(jobs.(engine := J.PopLoad(q)), q, P)
  {
  }

  lemma ProcessingTurn(c: State, i: Input)
    requires Processing(c.loop) && !c.jobs.engine.Resting?
    ensures var d := ApplyTurn(c, i);
            && d.loop == c.loop && d.jobs == J.ApplyProcess(c.jobs) && d.fd == c.fd && d.quit == c.quit
            && (!RunsJob(c.jobs) ==> d.write == c.write && d.render == c.render)
  {
    hide J.ApplyProcess;
  }

  /** The turns between the tests of a pass and the processing of queues. */
  lemma RestingTurn(c: State, i: Input)
    requires c.jobs.engine.Resting?
    ensures Continues(c, ApplyTurn(c, i))
  {
    hide J.ApplyProcess, J.Head, CheckWrite, L.PollTimeout, L.Polled, Gathered.Raised, Continues;
    if c.loop.Collect? || c.loop.PrepQuit? || c.loop.PrepConst? || c.loop.PrepAsync? || c.loop.PrepStamp?
       || c.loop.Poll? || c.loop.Flush? {
      FirstHalf(c, i);
    } else {
      SecondHalf(c, i);
    }
  }

  ghost predicate Continues(c: State, d: State) {
    && (d.loop.RenderJobs? || d.loop.AsyncFirst? ==> d.jobs == c.jobs.(engine := J.PopLoad(J.AsyncJobs)))
    && (d.loop.ConstJobs? ==> c.loop.AsyncFirst? && d.jobs == c.jobs.(engine := J.PopLoad(J.ConstJobs)))
    && (d.loop.Render? ==> c.loop.RenderJobs?)
    && (d.loop.Finish? ==> c.loop.ConstJobs? || (c.loop.TestConst? && J.Head(c.jobs, J.Queued(J.ConstJobs)).Null?))
    && d.jobs == c.jobs.(engine := d.jobs.engine)
  }

  lemma FirstHalf(c: State, i: Input)
    requires c.loop.Collect? || c.loop.PrepQuit? || c.loop.PrepConst? || c.loop.PrepAsync? || c.loop.PrepStamp?
             || c.loop.Poll? || c.loop.Flush?
    ensures Continues(c, ApplyTurn(c, i))
  {
    hide J.ApplyProcess, J.Head, CheckWrite, L.PollTimeout, L.Polled, Gathered.Raised;
  }

  lemma SecondHalf(c: State, i: Input)
    requires c.jobs.engine.Resting? && !c.loop.Collect? && !c.loop.PrepQuit? && !c.loop.PrepConst?
    requires !c.loop.PrepAsync? && !c.loop.PrepStamp? && !c.loop.Poll? && !c.loop.Flush?
    ensures Continues(c, ApplyTurn(c, i))
  {
    hide J.ApplyProcess, J.Head, CheckWrite, Gathered.Begins;
  }

  lemma TurnInTime(c: State, i: Input, async: seq<nat>, consts: seq<nat>)
    requires Inv(c) && Enabled(c, Turn(i)) && InTime(c, async, consts)
    ensures InTime(ApplyTurn(c, i), async, consts)
  {
    hide J.Inv, J.HeadsOk, Serving, J.ApplyProcess, ApplyTurn, Enabled, Relied, Signalled;
    if !c.jobs.engine.Resting? {
      ProcessingTurn(c, i);
      Heads(c.jobs);
      ProcessLogs(c.jobs, J.AsyncJobs);
      ProcessLogs(c.jobs, J.ConstJobs);
      if Serving(c.jobs, J.AsyncJobs, async) { ProcessServes(c.jobs, J.AsyncJobs, async); }
      if Serving(c.jobs, J.ConstJobs, consts) { ProcessServes(c.jobs, J.ConstJobs, consts); }
    } else {
      RestingTurn(c, i);
      BeginServes(c.jobs, J.AsyncJobs, async);
      BeginServes(c.jobs, J.ConstJobs, consts);
      if Serving(c.jobs, J.AsyncJobs, async) { ServedRan(c.jobs, J.AsyncJobs, async); }
      if Serving(c.jobs, J.ConstJobs, consts) { ServedRan(c.jobs, J.ConstJobs, consts); }
      if J.Head(c.jobs, J.Queued(J.ConstJobs)).Null? { J.DrainedQueue(c.jobs, J.ConstJobs); }
    }
  }

  lemma {:induction false} RunInTime(c: State, steps: seq<Step>, async: seq<nat>, consts: seq<nat>)
    requires Inv(c) && IsRun(c, steps) && InTime(c, async, consts)
    ensures Inv(Final(c, steps)) && InTime(Final(c, steps), async, consts)
    decreases |steps|
  {
    hide Inv, InTime;
    if steps != [] {
      StepInv(c, steps[0]);
      StepInTime(c, steps[0], async, consts);
      RunInTime(Apply(c, steps[0]), steps[1..], async, consts);
    }
  }

  /** In every interleaving: when a dispatch pass finishes, every const job pushed before it tested for const jobs has
      run; and before it runs const jobs, or renders, all async jobs pushed before it started on them have run. */
  lemma PassServes(c: State, before: seq<Step>, pass: seq<Step>)
    requires Init(c) && IsRun(c, before) && IsRun(Final(c, before), pass)
    requires Final(c, before).loop.TestConst? || Final(c, before).loop.TestRender?
    ensures var b, d := Final(c, before), Final(Final(c, before), pass);
            && (d.loop.Finish? ==> b.jobs.book.pushed.consts <= d.jobs.book.ran.consts)
            && (d.loop.Render? || d.loop.ConstJobs? ==> b.jobs.book.pushed.async <= d.jobs.book.ran.async)
  {
    hide Inv;
    InitInv(c);
    RunInvariant(c, before);
    var b := Final(c, before);
    RunInTime(b, pass, b.jobs.book.pushed.async, b.jobs.book.pushed.consts);
  }

  // ----- the engine thread alone

  /** How many steps process_jobs() needs at most when no other thread interferes. */
  function Rank(jobs: J.State): nat {
    var p, b := |At(jobs.lists, Popped())|, |At(jobs.lists, Batch())|;
    match jobs.engine
    case Resting => 0
    case PopLoad(q) => 13 + 3 * |At(jobs.lists, J.Queued(q))|
    case PopCas(q, seen) =>
      (if seen.Ref? && J.Head(jobs, J.Queued(q)) != seen then 12 else 11) + 3 * |At(jobs.lists, J.Queued(q))|
    case RevLoad(_, _, _) => 10 + b + 3 * p
    case RevStore(_, _, _, _) => 9 + b + 3 * p
    case Run(_, _, _, _) => 8 + Max(b - jobs.count, 0)
    case TrashCheck(_, _) => 7
    case TrashLoad(_, _) => 6
    case TrashStore(_, _, seen) => if J.Head(jobs, J.Trash) == seen then 3 else 5
    case TrashCas(_, _, seen) => if J.Head(jobs, J.Trash) == seen then 2 else 4
    case OwnerWakeup => 1
  }

  function Popped(): J.Place { J.Popped }

  function Batch(): J.Place { J.Batch }

  lemma RankFalls(jobs: J.State)
    requires J.Shape(jobs) && !jobs.engine.Resting?
    ensures Rank(J.ApplyProcess(jobs)) < Rank(jobs)
  {
    hide J.Shape, J.ApplyProcess, Rank;
    if jobs.engine.PopLoad? || jobs.engine.PopCas? {
      PopRank(jobs);
    } else if jobs.engine.RevLoad? || jobs.engine.RevStore? {
      ReverseRank(jobs);
    } else if jobs.engine.Run? {
      RunRank(jobs);
    } else {
      TrashRank(jobs);
    }
  }

  lemma PopRank(jobs: J.State)
    requires J.Shape(jobs) && (jobs.engine.PopLoad? || jobs.engine.PopCas?)
    ensures Rank(J.ApplyProcess(jobs)) < Rank(jobs)
  {
    hide Ok, J.ProducersOk, J.OwnerOk, Get;
  }

  lemma ReverseRank(jobs: J.State)
    requires J.Shape(jobs) && (jobs.engine.RevLoad? || jobs.engine.RevStore?)
    ensures Rank(J.ApplyProcess(jobs)) < Rank(jobs)
  {
    hide Ok, J.ProducersOk, J.OwnerOk, J.HeadsOk, Get;
  }

  lemma RunRank(jobs: J.State)
    requires J.Shape(jobs) && jobs.engine.Run?
    ensures Rank(J.ApplyProcess(jobs)) < Rank(jobs)
  {
    hide Ok, J.ProducersOk, J.OwnerOk, J.HeadsOk, Get;
  }

  lemma TrashRank(jobs: J.State)
    requires jobs.engine.TrashCheck? || jobs.engine.TrashLoad? || jobs.engine.TrashStore? || jobs.engine.TrashCas?
             || jobs.engine.OwnerWakeup?
    ensures Rank(J.ApplyProcess(jobs)) < Rank(jobs)
  {
    hide Get;
  }

  /** The driver source is asked in this iteration, and no other source is ready. */
  ghost predicate Calm(i: Input) {
    !i.others && i.gathered.Collected() && i.gathered.Begins() == PrepQuit
  }

  ghost predicate AllCalm(inputs: nat -> Input) {
    forall k :: Calm(inputs(k))
  }

  /** n turns of the engine thread, from input k on, lead from c to d. */
  ghost predicate Goes(c: State, inputs: nat -> Input, k: nat, n: nat, d: State)
    decreases n
  {
    if n == 0 then c == d
    else Enabled(c, Turn(inputs(k))) && Goes(ApplyTurn(c, inputs(k)), inputs, k + 1, n - 1, d)
  }

  /** These turns are a run of the engine thread alone. */
  lemma {:induction false} GoesIsRun(c: State, inputs: nat -> Input, k: nat, n: nat, d: State)
    returns (steps: seq<Step>)
    requires Goes(c, inputs, k, n, d)
    ensures IsRun(c, steps) && Final(c, steps) == d && |steps| == n && forall s :: s in steps ==> s.Turn?
    decreases n
  {
    hide Enabled, ApplyTurn;
    steps := [];
    if n > 0 {
      var rest := GoesIsRun(ApplyTurn(c, inputs(k)), inputs, k + 1, n - 1, d);
      steps := [Turn(inputs(k))] + rest;
      assert steps[1..] == rest;
    }
  }

  lemma {:induction false} GoesFurther(c: State, inputs: nat -> Input, k: nat, n: nat, d: State, m: nat, e: State)
    requires Goes(c, inputs, k, n, d) && Goes(d, inputs, k + n, m, e)
    ensures Goes(c, inputs, k, n + m, e)
    decreases n
  {
    hide Enabled, ApplyTurn;
    if n > 0 { GoesFurther(ApplyTurn(c, inputs(k)), inputs, k + 1, n - 1, d, m, e); }
  }

  /** One more turn. */
  lemma Further(c: State, inputs: nat -> Input, k: nat, n: nat, d: State) returns (e: State)
    requires Goes(c, inputs, k, n, d) && Enabled(d, Turn(inputs(k + n))) && Inv(d)
    ensures e == ApplyTurn(d, inputs(k + n)) && Goes(c, inputs, k, n + 1, e) && Inv(e)
  {
    hide Enabled, ApplyTurn, Inv;
    e := ApplyTurn(d, inputs(k + n));
    InvTurn(d, inputs(k + n));
    GoesFurther(c, inputs, k, n, d, 1, e);
  }

  lemma InvTurn(c: State, i: Input)
    requires Inv(c) && Enabled(c, Turn(i))
    ensures Inv(ApplyTurn(c, i))
  {
    StepInv(c, Turn(i));
  }

  lemma {:induction false} GoesInTime(c: State, inputs: nat -> Input, k: nat, n: nat, d: State,
                                      async: seq<nat>, consts: seq<nat>)
    requires Inv(c) && Goes(c, inputs, k, n, d) && InTime(c, async, consts)
    ensures Inv(d) && InTime(d, async, consts)
    decreases n
  {
    hide Inv, InTime, Enabled, ApplyTurn;
    if n > 0 {
      InvTurn(c, inputs(k));
      TurnInTime(c, inputs(k), async, consts);
      GoesInTime(ApplyTurn(c, inputs(k)), inputs, k + 1, n - 1, d, async, consts);
    }
  }

  /** The pass over queue q. */
  predicate OnQueue(e: J.Engine, q: J.Queue) {
    e.PopLoad? || e.PopCas? || e.RevLoad? || e.RevStore? || e.Run? ==> e.q == q
  }

  lemma StaysOnQueue(jobs: J.State, q: J.Queue)
    requires OnQueue(jobs.engine, q)
    ensures OnQueue(J.ApplyProcess(jobs).engine, q)
  {
    hide J.ApplyProcess;
    if jobs.engine.RevLoad? || jobs.engine.RevStore? || jobs.engine.Run? {
      BatchStays(jobs, q);
    } else if jobs.engine.PopLoad? || jobs.engine.PopCas? {
      PopStays(jobs, q);
    } else {
      TrashStays(jobs, q);
    }
  }

  lemma BatchStays(jobs: J.State, q: J.Queue)
    requires OnQueue(jobs.engine, q) && (jobs.engine.RevLoad? || jobs.engine.RevStore? || jobs.engine.Run?)
    ensures OnQueue(J.ApplyProcess(jobs).engine, q)
  {
    hide Get, J.Head, J.Id, J.ShiftedLists, At, J.Log.Add;
  }

  lemma PopStays(jobs: J.State, q: J.Queue)
    requires OnQueue(jobs.engine, q) && (jobs.engine.PopLoad? || jobs.engine.PopCas?)
    ensures OnQueue(J.ApplyProcess(jobs).engine, q)
  {
    hide Get, J.Head, J.Id, J.ShiftedLists, At, J.Log.Add;
  }

  lemma TrashStays(jobs: J.State, q: J.Queue)
    requires !jobs.engine.RevLoad? && !jobs.engine.RevStore? && !jobs.engine.Run?
    requires !jobs.engine.PopLoad? && !jobs.engine.PopCas?
    ensures OnQueue(J.ApplyProcess(jobs).engine, q)
  {
    hide Get, J.Head, J.Id, J.ShiftedLists, At, J.Log.Add;
  }

  /** The pass over queue q has no job to run. */
  predicate NoneToRun(jobs: J.State, q: J.Queue) {
    At(jobs.lists, J.Queued(q)) == [] && At(jobs.lists, J.Popped) == [] && At(jobs.lists, J.Batch) == []
  }

  lemma NoneStays(jobs: J.State, q: J.Queue)
    requires J.Shape(jobs) && NoneToRun(jobs, q) && OnQueue(jobs.engine, q)
    ensures NoneToRun(J.ApplyProcess(jobs), q) && !RunsJob(jobs)
  {
    hide Ok, J.ProducersOk, J.OwnerOk, Get, J.Id, J.Log.Add;
  }

  /** What process_jobs() leaves as it was, when the engine is alone. */
  ghost predicate OnlyServed(c: State, d: State, q: J.Queue) {
    && d.loop == c.loop && d.quit == c.quit && d.fd == c.fd && d.jobs.book.pushed == c.jobs.book.pushed
    && (forall r :: r != q ==> At(d.jobs.lists, J.Queued(r)) == At(c.jobs.lists, J.Queued(r)))
    && |At(d.jobs.lists, J.Queued(q))| <= |At(c.jobs.lists, J.Queued(q))|
  }

  /** process_jobs() ends. */
  lemma {:induction false} ProcessEnds(c: State, inputs: nat -> Input, k: nat, q: J.Queue) returns (n: nat, d: State)
    requires Inv(c) && Processing(c.loop) && OnQueue(c.jobs.engine, q)
    ensures Goes(c, inputs, k, n, d) && n <= Rank(c.jobs) && Inv(d) && d.jobs.engine.Resting? && OnlyServed(c, d, q)
    ensures NoneToRun(c.jobs, q) ==> d.write == c.write && d.render == c.render
    decreases Rank(c.jobs)
  {
    hide Inv, Rank, ApplyTurn, OnQueue, Enabled, J.ApplyProcess, RunsJob, NoneToRun;
    if c.jobs.engine.Resting? {
      n, d := 0, c;
    } else {
      var i := inputs(k);
      ProcessingEnabled(c, i);
      ProcessingTurn(c, i);
      InvTurn(c, i);
      ShapeOf(c);
      RankFalls(c.jobs);
      StaysOnQueue(c.jobs, q);
      if NoneToRun(c.jobs, q) { NoneStays(c.jobs, q); }
      QueuesStay(c.jobs, q);
      n, d := ProcessEnds(ApplyTurn(c, i), inputs, k + 1, q);
      n := n + 1;
    }
  }

  lemma ProcessingEnabled(c: State, i: Input)
    requires Processing(c.loop)
    ensures Enabled(c, Turn(i))
  {
  }

  lemma ShapeOf(c: State)
    requires Inv(c)
    ensures J.Shape(c.jobs) && J.Inv(c.jobs)
  {
  }

  lemma QueuesStay(jobs: J.State, q: J.Queue)
    requires OnQueue(jobs.engine, q)
    ensures J.ApplyProcess(jobs).book.pushed == jobs.book.pushed
    ensures forall r :: r != q ==> At(J.ApplyProcess(jobs).lists, J.Queued(r)) == At(jobs.lists, J.Queued(r))
    ensures |At(J.ApplyProcess(jobs).lists, J.Queued(q))| <= |At(jobs.lists, J.Queued(q))|
  {
    hide J.ApplyProcess;
    forall r | r != q ensures At(J.ApplyProcess(jobs).lists, J.Queued(r)) == At(jobs.lists, J.Queued(r)) {
      ProcessQueues(jobs, r);
    }
    ProcessQueues(jobs, q);
  }

  function Waiting(c: State, q: J.Queue): nat { |At(c.jobs.lists, J.Queued(q))| }

  /** From the start of an iteration to the dispatch of the driver source, with a job queued. */
  lemma ToDispatch(c: State, inputs: nat -> Input, k: nat) returns (n: nat, d: State)
    requires Inv(c) && c.loop.Collect? && !c.quit && c.jobs.engine.Resting? && AllCalm(inputs)
    requires J.Head(c.jobs, J.Queued(J.ConstJobs)).Ref? || J.Head(c.jobs, J.Queued(J.AsyncJobs)).Ref?
    ensures Goes(c, inputs, k, n, d) && n <= 11 && Inv(d) && n > 0
    ensures d.loop.TestRender? && d.jobs == c.jobs && !d.quit && d.render == c.render
    ensures d.write == CheckWrite(c, inputs(k + n - 1))
  {
    hide Inv, Goes, Calm, J.ApplyProcess, CheckWrite, J.Head;
    n, d := ToDecide(c, inputs, k);
    assert Calm(inputs(k + n));
    CalmFacts(inputs(k + n));
    d := Further(c, inputs, k, n, d);
    n := n + 1;
    SameCheck(c, d, inputs(k + n));
    d := Further(c, inputs, k, n, d);
    n := n + 1;
  }

  /** From the start of an iteration to the decision that the driver source needs dispatching. */
  lemma ToDecide(c: State, inputs: nat -> Input, k: nat) returns (n: nat, d: State)
    requires Inv(c) && c.loop.Collect? && !c.quit && c.jobs.engine.Resting? && AllCalm(inputs)
    requires J.Head(c.jobs, J.Queued(J.ConstJobs)).Ref? || J.Head(c.jobs, J.Queued(J.AsyncJobs)).Ref?
    ensures Goes(c, inputs, k, n, d) && n <= 9 && Inv(d)
    ensures d == c.(loop := Decide(true), fd := d.fd)
  {
    hide Inv, Goes, Calm, J.ApplyProcess, CheckWrite;
    n, d := ToCheck(c, inputs, k);
    d := Further(c, inputs, k, n, d);
    n := n + 1;
    if d.loop.CheckAsync? {
      d := Further(c, inputs, k, n, d);
      n := n + 1;
    }
  }

  lemma SameCheck(c: State, d: State, i: Input)
    requires d.write == c.write && d.render == c.render
    ensures CheckWrite(d, i) == CheckWrite(c, i)
  {
  }

  lemma CalmFacts(i: Input)
    requires Calm(i)
    ensures !i.others && i.gathered.Collected() && i.gathered.Begins() == PrepQuit
  {
  }

  /** The prepare phase, poll() and the first test of the check phase. */
  lemma ToCheck(c: State, inputs: nat -> Input, k: nat) returns (n: nat, d: State)
    requires Inv(c) && c.loop.Collect? && !c.quit && c.jobs.engine.Resting? && AllCalm(inputs)
    requires J.Head(c.jobs, J.Queued(J.ConstJobs)).Ref? || J.Head(c.jobs, J.Queued(J.AsyncJobs)).Ref?
    ensures Goes(c, inputs, k, n, d) && n <= 7 && Inv(d)
    ensures d == c.(loop := CheckConst, fd := d.fd)
  {
    hide Inv, Goes, Calm, J.ApplyProcess, CheckWrite;
    Nowhere(c, inputs, k);
    assert Calm(inputs(k));
    CalmFacts(inputs(k));
    n, d := 0, c;
    d := Further(c, inputs, k, n, d);
    n := n + 1;
    d := Further(c, inputs, k, n, d);
    n := n + 1;
    d := Further(c, inputs, k, n, d);
    n := n + 1;
    if d.loop.PrepAsync? {
      d := Further(c, inputs, k, n, d);
      n := n + 1;
    }
    assert d.loop == Poll(false, true);
    d := Further(c, inputs, k, n, d);
    n := n + 1;
    d := Further(c, inputs, k, n, d);
    n := n + 1;
    d := Further(c, inputs, k, n, d);
    n := n + 1;
  }

  lemma Nowhere(c: State, inputs: nat -> Input, k: nat)
    ensures Goes(c, inputs, k, 0, c)
  {
  }

  /** A queue is taken up, and process_jobs() ends. */
  lemma ServeQueue(c: State, inputs: nat -> Input, k: nat, n: nat, d: State, q: J.Queue) returns (m: nat, e: State)
    requires Goes(c, inputs, k, n, d) && Inv(d) && Processing(d.loop) && d.jobs.engine == J.PopLoad(q)
    ensures Goes(c, inputs, k, m, e) && m <= n + 13 + 3 * Waiting(d, q) && Inv(e) && e.jobs.engine.Resting?
    ensures OnlyServed(d, e, q) && (NoneToRun(d.jobs, q) ==> e.write == d.write && e.render == d.render)
  {
    hide Inv, Goes;
    var r, f := ProcessEnds(d, inputs, k + n, q);
    GoesFurther(c, inputs, k, n, d, r, f);
    m, e := n + r, f;
  }

  /** The async jobs of a pass that renders. */
  lemma RenderServes(c: State, inputs: nat -> Input, k: nat) returns (n: nat, d: State)
    requires Inv(c) && c.loop.TestRender? && c.jobs.engine.Resting? && c.render <= c.write
    ensures Goes(c, inputs, k, n, d) && n <= 15 + 3 * Waiting(c, J.AsyncJobs) && Inv(d)
    ensures d.loop.Render? && d.jobs.engine.Resting? && OnlyServed(c, d.(loop := c.loop), J.AsyncJobs)
    ensures NoneToRun(c.jobs, J.AsyncJobs) ==> d.write == c.write && d.render == c.render
  {
    hide Inv, Goes, J.ApplyProcess, CheckWrite;
    Nowhere(c, inputs, k);
    n, d := 0, c;
    d := Further(c, inputs, k, n, d);
    n := n + 1;
    n, d := ServeQueue(c, inputs, k, n, d, J.AsyncJobs);
    d := Further(c, inputs, k, n, d);
    n := n + 1;
  }

  /** From the dispatch of the driver source to its test for const jobs. */
  lemma ToTestConst(c: State, inputs: nat -> Input, k: nat) returns (n: nat, d: State)
    requires Inv(c) && c.loop.TestRender? && c.jobs.engine.Resting?
    ensures Goes(c, inputs, k, n, d) && n <= 17 + 3 * Waiting(c, J.AsyncJobs) && Inv(d)
    ensures d.loop.TestConst? && d.jobs.engine.Resting? && OnlyServed(c, d.(loop := c.loop), J.AsyncJobs)
    ensures c.write < c.render ==> n == 1 && d == c.(loop := TestConst)
  {
    hide Inv, Goes, J.ApplyProcess, CheckWrite;
    Nowhere(c, inputs, k);
    n, d := 0, c;
    if c.render <= c.write {
      n, d := RenderServes(c, inputs, k);
      d := Further(c, inputs, k, n, d);
      n := n + 1;
    }
    d := Further(c, inputs, k, n, d);
    n := n + 1;
  }

  /** From the test for const jobs to the end of the pass, with a const job queued. */
  lemma ConstPass(c: State, inputs: nat -> Input, k: nat) returns (n: nat, d: State)
    requires Inv(c) && c.loop.TestConst? && c.jobs.engine.Resting?
    requires J.Head(c.jobs, J.Queued(J.ConstJobs)).Ref?
    ensures Goes(c, inputs, k, n, d) && n <= 29 + 3 * Waiting(c, J.AsyncJobs) + 3 * Waiting(c, J.ConstJobs) && Inv(d)
    ensures d.loop.ConstJobs? && d.jobs.engine.Resting?
  {
    hide Inv, Goes, J.ApplyProcess, J.Head;
    Nowhere(c, inputs, k);
    n, d := 0, c;
    d := Further(c, inputs, k, n, d);
    n := n + 1;
    n, d := ServeQueue(c, inputs, k, n, d, J.AsyncJobs);
    d := Further(c, inputs, k, n, d);
    n := n + 1;
    n, d := ServeQueue(c, inputs, k, n, d, J.ConstJobs);
  }

  /** What is queued at a pass is due in it. */
  lemma BeginInTime(c: State)
    requires c.loop.Collect?
    ensures InTime(c, c.jobs.book.pushed.async, c.jobs.book.pushed.consts)
  {
  }

  /** At the end of the const jobs of a pass all jobs due have run. */
  lemma DueRan(c: State, async: seq<nat>, consts: seq<nat>)
    requires Inv(c) && c.loop.ConstJobs? && c.jobs.engine.Resting? && InTime(c, async, consts)
    ensures async <= c.jobs.book.ran.async && consts <= c.jobs.book.ran.consts
  {
    hide J.Inv, Serving;
    ServedRan(c.jobs, J.ConstJobs, consts);
  }

  lemma SameHead(c: State, d: State)
    requires Inv(c) && Inv(d) && At(d.jobs.lists, J.Queued(J.ConstJobs)) == At(c.jobs.lists, J.Queued(J.ConstJobs))
    ensures J.Head(d.jobs, J.Queued(J.ConstJobs)).Ref? <==> J.Head(c.jobs, J.Queued(J.ConstJobs)).Ref?
  {
    Heads(c.jobs);
    Heads(d.jobs);
    EmptyHead(c.jobs, J.ConstJobs);
    EmptyHead(d.jobs, J.ConstJobs);
  }

  /** With a const job queued the engine alone runs, within a bounded number of turns, all jobs that are queued,
      whether the driver takes blocks or not. */
  lemma ConstJobsRun(c: State, inputs: nat -> Input, k: nat) returns (n: nat, d: State)
    requires Inv(c) && c.loop.Collect? && !c.quit && AllCalm(inputs)
    requires J.Head(c.jobs, J.Queued(J.ConstJobs)).Ref?
    ensures Goes(c, inputs, k, n, d) && Inv(d)
    ensures n <= 57 + 6 * Waiting(c, J.AsyncJobs) + 3 * Waiting(c, J.ConstJobs)
    ensures forall q :: c.jobs.book.pushed.Of(q) <= d.jobs.book.ran.Of(q)
  {
    hide Goes, InTime, J.Inv, AllCalm, CheckWrite;
    var n1, d1 := ToDispatch(c, inputs, k);
    var n2, d2 := ToTestConst(d1, inputs, k + n1);
    GoesFurther(c, inputs, k, n1, d1, n2, d2);
    SameHead(d1, d2);
    var n3, d3 := ConstPass(d2, inputs, k + n1 + n2);
    GoesFurther(c, inputs, k, n1 + n2, d2, n3, d3);
    n, d := n1 + n2 + n3, d3;
    BeginInTime(c);
    GoesInTime(c, inputs, k, n, d, c.jobs.book.pushed.async, c.jobs.book.pushed.consts);
    DueRan(d, c.jobs.book.pushed.async, c.jobs.book.pushed.consts);
  }

  ghost predicate AllWrite(inputs: nat -> Input) {
    forall k :: inputs(k).canWrite
  }

  /** The blocks that are still to be written before the engine renders again, in passes. */
  function Passes(c: State): nat { Max(0, c.render - c.write) / BLOCK + 1 }

  /** A pass without const jobs, while there are blocks to write. */
  lemma WritePass(c: State, inputs: nat -> Input, k: nat) returns (n: nat, d: State)
    requires Inv(c) && c.loop.TestRender? && c.jobs.engine.Resting? && c.write < c.render
    requires J.Head(c.jobs, J.Queued(J.ConstJobs)).Null?
    ensures Goes(c, inputs, k, n, d) && n <= 3 && Inv(d) && d == c.(loop := Collect)
  {
    hide Inv, Goes, J.ApplyProcess;
    Nowhere(c, inputs, k);
    n, d := 0, c;
    d := Further(c, inputs, k, n, d);
    n := n + 1;
    d := Further(c, inputs, k, n, d);
    n := n + 1;
    d := Further(c, inputs, k, n, d);
    n := n + 1;
  }

  lemma RenderDue(c: State, async: seq<nat>, consts: seq<nat>)
    requires Inv(c) && c.loop.Render? && InTime(c, async, consts)
    ensures async <= c.jobs.book.ran.async
  {
  }

  lemma Emptied(c: State)
    requires Inv(c) && c.jobs.engine.Resting? && J.Head(c.jobs, J.Queued(J.ConstJobs)).Null?
    ensures c.jobs.book.ran.consts == c.jobs.book.pushed.consts
  {
    J.DrainedQueue(c.jobs, J.ConstJobs);
  }

  /** The pass that renders runs all async jobs. */
  lemma RenderPass(c: State, c1: State, inputs: nat -> Input, k: nat, n1: nat) returns (n: nat, d: State)
    requires Inv(c) && c.loop.Collect? && Goes(c, inputs, k, n1, c1) && c1.jobs == c.jobs
    requires Inv(c1) && c1.loop.TestRender? && c1.jobs.engine.Resting? && c1.render <= c1.write
    ensures Goes(c, inputs, k, n, d) && n <= n1 + 15 + 3 * Waiting(c, J.AsyncJobs) && Inv(d)
    ensures c.jobs.book.pushed.async <= d.jobs.book.ran.async
    ensures d.jobs.engine.Resting? && OnlyServed(c, d.(loop := c.loop, quit := c.quit, fd := c.fd), J.AsyncJobs)
  {
    hide Goes, InTime, Inv, CheckWrite;
    var n2;
    n2, d := RenderServes(c1, inputs, k + n1);
    GoesFurther(c, inputs, k, n1, c1, n2, d);
    n := n1 + n2;
    BeginInTime(c);
    GoesInTime(c, inputs, k, n, d, c.jobs.book.pushed.async, c.jobs.book.pushed.consts);
    RenderDue(d, c.jobs.book.pushed.async, c.jobs.book.pushed.consts);
  }

  /** As long as the driver takes blocks, the engine alone runs all queued jobs within a bounded number of turns. */
  lemma {:induction false} QueuedJobsRun(c: State, inputs: nat -> Input, k: nat) returns (n: nat, d: State)
    requires Inv(c) && c.loop.Collect? && !c.quit && AllCalm(inputs) && AllWrite(inputs) && c.jobs.engine.Resting?
    requires J.Head(c.jobs, J.Queued(J.ConstJobs)).Ref? || J.Head(c.jobs, J.Queued(J.AsyncJobs)).Ref?
    ensures Goes(c, inputs, k, n, d)
    ensures n <= 14 * Passes(c) + 57 + 6 * Waiting(c, J.AsyncJobs) + 3 * Waiting(c, J.ConstJobs)
    ensures forall q :: c.jobs.book.pushed.Of(q) <= d.jobs.book.ran.Of(q)
    decreases Max(0, c.render - c.write)
  {
    hide Goes, Inv, AllCalm, Calm;
    if J.Head(c.jobs, J.Queued(J.ConstJobs)).Ref? {
      n, d := ConstJobsRun(c, inputs, k);
    } else {
      Emptied(c);
      var n1, d1 := ToDispatch(c, inputs, k);
      assert inputs(k + n1 - 1).canWrite;
      if d1.render <= d1.write {
        n, d := RenderPass(c, d1, inputs, k, n1);
        SameHead(c, d);
        Emptied(d);
      } else {
        var n2, d2 := WritePass(d1, inputs, k + n1);
        GoesFurther(c, inputs, k, n1, d1, n2, d2);
        var n3;
        n3, d := QueuedJobsRun(d2, inputs, k + n1 + n2);
        GoesFurther(c, inputs, k, n1 + n2, d2, n3, d);
        n := n1 + n2 + n3;
      }
    }
  }

  /** In every interleaving the engine gets to the queued jobs: from any reachable state at the start of an iteration,
      not quitting, its own turns run all jobs pushed so far in a bounded number of steps, provided that the driver
      takes blocks or a const job is among them. */
  lemma EveryJobRuns(c: State, before: seq<Step>, inputs: nat -> Input) returns (turns: seq<Step>)
    requires Init(c) && IsRun(c, before) && AllCalm(inputs)
    requires var b := Final(c, before);
             && b.loop.Collect? && !b.quit
             && (J.Head(b.jobs, J.Queued(J.ConstJobs)).Ref?
                 || (J.Head(b.jobs, J.Queued(J.AsyncJobs)).Ref? && AllWrite(inputs)))
    ensures var b := Final(c, before);
            && IsRun(b, turns) && (forall s :: s in turns ==> s.Turn?)
            && |turns| <= 14 * Passes(b) + 57 + 6 * Waiting(b, J.AsyncJobs) + 3 * Waiting(b, J.ConstJobs)
            && forall q :: b.jobs.book.pushed.Of(q) <= Final(b, turns).jobs.book.ran.Of(q)
  {
    hide Goes, AllCalm, AllWrite, J.Inv;
    InitInv(c);
    RunInvariant(c, before);
    var b := Final(c, before);
    var n, d;
    if J.Head(b.jobs, J.Queued(J.ConstJobs)).Ref? {
      n, d := ConstJobsRun(b, inputs, 0);
    } else {
      n, d := QueuedJobsRun(b, inputs, 0);
    }
    turns := GoesIsRun(b, inputs, 0, n, d);
  }

  /** An engine with nothing to do goes to sleep in poll(). */
  lemma IdleSleeps(c: State, inputs: nat -> Input, k: nat) returns (n: nat, d: State)
    requires Inv(c) && c.loop.Collect? && !c.quit && AllCalm(inputs) && c.write < c.render && !inputs(k + 4).canWrite
    requires J.Head(c.jobs, J.Queued(J.ConstJobs)).Null? && J.Head(c.jobs, J.Queued(J.AsyncJobs)).Null?
    ensures Goes(c, inputs, k, n, d) && n == 5 && d == c.(loop := Poll(true, true))
  {
    hide Inv, Goes, Calm, J.ApplyProcess, CheckWrite;
    Nowhere(c, inputs, k);
    assert Calm(inputs(k)) && Calm(inputs(k + 4));
    CalmFacts(inputs(k));
    CalmFacts(inputs(k + 4));
    n, d := 0, c;
    d := Further(c, inputs, k, n, d);
    n := n + 1;
    d := Further(c, inputs, k, n, d);
    n := n + 1;
    d := Further(c, inputs, k, n, d);
    n := n + 1;
    d := Further(c, inputs, k, n, d);
    n := n + 1;
    d := Further(c, inputs, k, n, d);
    n := n + 1;
  }

  lemma NothingToRun(c: State)
    requires Inv(c) && c.jobs.engine.Resting? && J.Head(c.jobs, J.Queued(J.AsyncJobs)).Null?
    ensures NoneToRun(c.jobs, J.AsyncJobs)
  {
    Heads(c.jobs);
    EmptyHead(c.jobs, J.AsyncJobs);
  }

  /** From the start of an iteration to the dispatch of the driver source, when there is a block to render or write. */
  lemma ToAudio(c: State, inputs: nat -> Input, k: nat) returns (n: nat, d: State)
    requires Inv(c) && c.loop.Collect? && !c.quit && c.jobs.engine.Resting? && AllCalm(inputs)
    requires c.render <= c.write || AllWrite(inputs)
    requires J.Head(c.jobs, J.Queued(J.ConstJobs)).Null? && J.Head(c.jobs, J.Queued(J.AsyncJobs)).Null?
    ensures Goes(c, inputs, k, n, d) && n == 12 && Inv(d) && d == c.(loop := Write, fd := d.fd)
  {
    hide Inv, Goes, Calm, J.ApplyProcess, CheckWrite, AllCalm, AllWrite, J.Head;
    n, d := ToStamp(c, inputs, k);
    n, d := StampToPoll(c, inputs, k, n, d);
    n, d := PollToDecide(c, inputs, k, n, d);
    CalmAt(inputs, k + n);
    d := Further(c, inputs, k, n, d);
    n := n + 1;
  }

  lemma CalmAt(inputs: nat -> Input, k: nat)
    requires AllCalm(inputs)
    ensures !inputs(k).others && inputs(k).gathered.Collected() && inputs(k).gathered.Begins() == PrepQuit
  {
    assert Calm(inputs(k));
  }

  lemma WriteAt(inputs: nat -> Input, k: nat)
    requires AllWrite(inputs)
    ensures inputs(k).canWrite
  {
  }

  lemma ToStamp(c: State, inputs: nat -> Input, k: nat) returns (n: nat, d: State)
    requires Inv(c) && c.loop.Collect? && !c.quit && c.jobs.engine.Resting? && AllCalm(inputs)
    requires J.Head(c.jobs, J.Queued(J.ConstJobs)).Null? && J.Head(c.jobs, J.Queued(J.AsyncJobs)).Null?
    ensures Goes(c, inputs, k, n, d) && n == 4 && Inv(d) && d == c.(loop := PrepStamp)
  {
    hide Inv, Goes, J.ApplyProcess, CheckWrite, AllCalm;
    Nowhere(c, inputs, k);
    CalmAt(inputs, k);
    n, d := 0, c;
    d := Further(c, inputs, k, n, d);
    n := n + 1;
    d := Further(c, inputs, k, n, d);
    n := n + 1;
    d := Further(c, inputs, k, n, d);
    n := n + 1;
    d := Further(c, inputs, k, n, d);
    n := n + 1;
  }

  lemma StampToPoll(c: State, inputs: nat -> Input, k: nat, n: nat, d: State) returns (m: nat, e: State)
    requires Goes(c, inputs, k, n, d) && Inv(d) && d.loop.PrepStamp? && (d.render <= d.write || AllWrite(inputs))
    ensures Goes(c, inputs, k, m, e) && m == n + 1 && Inv(e) && e == d.(loop := Poll(false, true))
  {
    hide Inv, Goes, J.ApplyProcess, CheckWrite;
    if AllWrite(inputs) { WriteAt(inputs, k + n); }
    e := Further(c, inputs, k, n, d);
    m := n + 1;
  }

  lemma PollToDecide(c: State, inputs: nat -> Input, k: nat, n: nat, d: State) returns (m: nat, e: State)
    requires Goes(c, inputs, k, n, d) && Inv(d) && d.loop == Poll(false, true) && !d.quit
    requires d.render <= d.write || AllWrite(inputs)
    requires J.Head(d.jobs, J.Queued(J.ConstJobs)).Null? && J.Head(d.jobs, J.Queued(J.AsyncJobs)).Null?
    ensures Goes(c, inputs, k, m, e) && m == n + 6 && Inv(e) && e == d.(loop := Decide(true), fd := e.fd)
  {
    hide Inv, Goes, J.ApplyProcess, CheckWrite, AllWrite;
    m, e := n, d;
    e := Further(c, inputs, k, m, e);
    m := m + 1;
    e := Further(c, inputs, k, m, e);
    m := m + 1;
    e := Further(c, inputs, k, m, e);
    m := m + 1;
    e := Further(c, inputs, k, m, e);
    m := m + 1;
    e := Further(c, inputs, k, m, e);
    m := m + 1;
    if AllWrite(inputs) { WriteAt(inputs, k + m); }
    e := Further(c, inputs, k, m, e);
    m := m + 1;
  }

  /** A block that has to be rendered is rendered, whether the driver takes blocks or not. */
  lemma RendersAnyway(c: State, inputs: nat -> Input, k: nat) returns (n: nat, d: State)
    requires Inv(c) && c.loop.Collect? && !c.quit && c.jobs.engine.Resting? && AllCalm(inputs) && c.render <= c.write
    requires J.Head(c.jobs, J.Queued(J.ConstJobs)).Null? && J.Head(c.jobs, J.Queued(J.AsyncJobs)).Null?
    ensures Goes(c, inputs, k, n, d) && n <= 29 && d.loop.WriteAgain? && d.render == c.render + BLOCK
  {
    hide Inv, Goes, J.ApplyProcess, AllCalm;
    NothingToRun(c);
    n, d := ToAudio(c, inputs, k);
    d := Further(c, inputs, k, n, d);
    n := n + 1;
    var m, e := RenderServes(d, inputs, k + n);
    GoesFurther(c, inputs, k, n, d, m, e);
    n, d := n + m, e;
    d := Further(c, inputs, k, n, d);
    n := n + 1;
  }

  /** Audio goes on: while the driver takes blocks, a pass writes what was rendered, renders the next block and writes
      it. */
  lemma AudioFlows(c: State, inputs: nat -> Input, k: nat) returns (n: nat, d: State)
    requires Inv(c) && c.loop.Collect? && !c.quit && c.jobs.engine.Resting? && AllCalm(inputs) && AllWrite(inputs)
    requires J.Head(c.jobs, J.Queued(J.ConstJobs)).Null? && J.Head(c.jobs, J.Queued(J.AsyncJobs)).Null?
    requires c.write == c.render || c.write + BLOCK == c.render
    ensures Goes(c, inputs, k, n, d) && n <= 32 && d.loop.Finish? && d.render == c.render + BLOCK && d.write == d.render
  {
    hide Inv, Goes, J.ApplyProcess, AllCalm, AllWrite;
    NothingToRun(c);
    n, d := ToAudio(c, inputs, k);
    WriteAt(inputs, k + n);
    d := Further(c, inputs, k, n, d);
    n := n + 1;
    assert d.loop.TestRender? && d.write == d.render == c.render;
    var m, e := RenderServes(d, inputs, k + n);
    GoesFurther(c, inputs, k, n, d, m, e);
    SameHead(d, e);
    n, d := n + m, e;
    n, d := RenderToFinish(c, inputs, k, n, d);
  }

  lemma RenderToFinish(c: State, inputs: nat -> Input, k: nat, n: nat, d: State) returns (m: nat, e: State)
    requires Goes(c, inputs, k, n, d) && Inv(d) && d.loop.Render? && d.jobs.engine.Resting? && AllWrite(inputs)
    requires J.Head(d.jobs, J.Queued(J.ConstJobs)).Null? && d.write == d.render
    ensures Goes(c, inputs, k, m, e) && m == n + 3 && Inv(e)
    ensures e.loop.Finish? && e.render == d.render + BLOCK && e.write == e.render
  {
    hide Inv, Goes, J.ApplyProcess, AllWrite;
    m, e := n, d;
    e := Further(c, inputs, k, m, e);
    m := m + 1;
    WriteAt(inputs, k + m);
    e := Further(c, inputs, k, m, e);
    m := m + 1;
    e := Further(c, inputs, k, m, e);
    m := m + 1;
  }

  /** From poll() back to the start of an iteration, with nothing to do. */
  lemma PollToCollect(c: State, inputs: nat -> Input, k: nat) returns (n: nat, d: State)
    requires Inv(c) && c.loop == Poll(true, true) && c.fd && !c.quit && c.jobs.engine.Resting? && AllCalm(inputs)
    requires forall j :: !inputs(j).canWrite
    requires c.write < c.render
    requires J.Head(c.jobs, J.Queued(J.ConstJobs)).Null? && J.Head(c.jobs, J.Queued(J.AsyncJobs)).Null?
    ensures Goes(c, inputs, k, n, d) && n == 7 && Inv(d) && d == c.(loop := Collect, fd := false)
  {
    hide Inv, Goes, J.ApplyProcess, AllCalm, CheckWrite, J.Head;
    n, d := PollToTests(c, inputs, k);
    d := Further(c, inputs, k, n, d);
    n := n + 1;
    d := Further(c, inputs, k, n, d);
    n := n + 1;
    d := Further(c, inputs, k, n, d);
    n := n + 1;
    CalmAt(inputs, k + n);
    d := Further(c, inputs, k, n, d);
    n := n + 1;
  }

  lemma PollToTests(c: State, inputs: nat -> Input, k: nat) returns (n: nat, d: State)
    requires Inv(c) && c.loop == Poll(true, true) && c.fd && !c.quit
    ensures Goes(c, inputs, k, n, d) && n == 3 && Inv(d) && d == c.(loop := CheckConst, fd := false)
  {
    hide Inv, Goes, J.ApplyProcess, CheckWrite, J.Head;
    Nowhere(c, inputs, k);
    n, d := 0, c;
    d := Further(c, inputs, k, n, d);
    n := n + 1;
    d := Further(c, inputs, k, n, d);
    n := n + 1;
    d := Further(c, inputs, k, n, d);
    n := n + 1;
  }

  /** A wakeup is answered once: with nothing to do the engine goes back to sleep, and the eventfd is clear. */
  lemma SleepsAgain(c: State, inputs: nat -> Input, k: nat) returns (n: nat, d: State)
    requires Inv(c) && c.loop == Poll(true, true) && c.fd && !c.quit && c.jobs.engine.Resting? && AllCalm(inputs)
    requires forall j :: !inputs(j).canWrite
    requires c.write < c.render
    requires J.Head(c.jobs, J.Queued(J.ConstJobs)).Null? && J.Head(c.jobs, J.Queued(J.AsyncJobs)).Null?
    ensures Goes(c, inputs, k, n, d) && n == 12 && d == c.(fd := false)
  {
    hide Inv, Goes, AllCalm, Enabled, ApplyTurn;
    n, d := PollToCollect(c, inputs, k);
    var m, e := IdleSleeps(d, inputs, k + n);
    GoesFurther(c, inputs, k, n, d, m, e);
    n, d := n + m, e;
  }
}
