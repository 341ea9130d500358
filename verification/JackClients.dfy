/**
 The two clients of the JACK driver's frame rings: the realtime callback writes the input ring and reads the output
 ring, the engine thread reads the input ring and writes the output ring. Both check the available space first and
 then rely on transferring full blocks.
 */
module JackClients {
  import opened Basics
  import FrameRing

  datatype Jack =
    | JackIdle
    | JackChecked(n: nat)
    | JackGo(n: nat)
    | JackWriting(n: nat)
    | JackWrote(n: nat)
    | JackReading(n: nat)

  datatype Engine =
    | EngineIdle
    | EngineChecked(avail: int)
    | EngineGo
    | EngineReading(junk: bool)
    | EngineRead
    | EngineJunked
    | EngineWriting

  /** `failed` is set when one of the full-block assertions does not hold. */
  datatype State = State(input: FrameRing.Ring, output: FrameRing.Ring, block: nat, jack: Jack, engine: Engine,
                         readCount: nat, writeCount: nat, failed: bool)

  datatype Step =
    | Callback(n: nat)
    | JackCheckOutput
    | JackStartWrite(data: seq<FrameRing.Frame>)
    | JackCopyIn
    | JackFinishWrite
    | JackStartRead
    | JackCopyOut
    | JackFinishRead
    | CheckIoOutput
    | CheckIoInput
    | PcmRead
    | EngineCopyOut
    | EngineFinishRead
    | PcmWrite
    | EngineStartWrite(data: seq<FrameRing.Frame>)
    | EngineCopyIn
    | EngineFinishWrite
    | EngineSkip

  /** The ring steps behind a step. */
  function InputStep(c: State, s: Step): Option<FrameRing.Step> {
    match s
    case JackStartWrite(data) => Some(FrameRing.StartWrite(data))
    case JackCopyIn => Some(FrameRing.CopyIn)
    case JackFinishWrite => Some(FrameRing.PublishWrite)
    case PcmRead => Some(FrameRing.StartRead(c.block))
    case PcmWrite => if c.readCount < c.writeCount + 1 then Some(FrameRing.StartRead(c.block)) else None
    case EngineCopyOut => Some(FrameRing.CopyOut)
    case EngineFinishRead => Some(FrameRing.PublishRead)
    case _ => None
  }

  function OutputStep(c: State, s: Step): Option<FrameRing.Step> {
    match s
    case JackStartRead => if c.jack.JackWrote? then Some(FrameRing.StartRead(c.jack.n)) else None
    case JackCopyOut => Some(FrameRing.CopyOut)
    case JackFinishRead => Some(FrameRing.PublishRead)
    case EngineStartWrite(data) => Some(FrameRing.StartWrite(data))
    case EngineCopyIn => Some(FrameRing.CopyIn)
    case EngineFinishWrite => Some(FrameRing.PublishWrite)
    case _ => None
  }

  predicate Ready(c: State, s: Step) {
    match s
    case Callback(_) => c.jack.JackIdle?
    case JackCheckOutput => c.jack.JackChecked?
    case JackStartWrite(data) => c.jack.JackGo? && |data| == c.jack.n
    case JackCopyIn => c.jack.JackWriting?
    case JackFinishWrite => c.jack.JackWriting?
    case JackStartRead => c.jack.JackWrote?
    case JackCopyOut => c.jack.JackReading?
    case JackFinishRead => c.jack.JackReading?
    case CheckIoOutput => c.engine.EngineIdle?
    case CheckIoInput => c.engine.EngineChecked?
    case PcmRead => c.engine.EngineGo?
    case EngineCopyOut => c.engine.EngineReading?
    case EngineFinishRead => c.engine.EngineReading?
    case PcmWrite => c.engine.EngineGo? || c.engine.EngineRead?
    case EngineStartWrite(data) => c.engine.EngineJunked? && |data| == c.block
    case EngineCopyIn => c.engine.EngineWriting?
    case EngineFinishWrite => c.engine.EngineWriting?
    case EngineSkip => c.engine.EngineGo? || c.engine.EngineRead?
  }

  predicate Enabled(c: State, s: Step) {
    && Ready(c, s)
    && (InputStep(c, s).Some? ==> FrameRing.Enabled(c.input, InputStep(c, s).value))
    && (OutputStep(c, s).Some? ==> FrameRing.Enabled(c.output, OutputStep(c, s).value))
  }

  function NextJack(c: State, s: Step): Jack
    requires Ready(c, s)
  {
    match s
    case Callback(n) => if FrameRing.Writable(c.input) >= n then JackChecked(n) else JackIdle
    case JackCheckOutput => if FrameRing.Readable(c.output) >= c.jack.n then JackGo(c.jack.n) else JackIdle
    case JackStartWrite(_) => JackWriting(c.jack.n)
    case JackFinishWrite => JackWrote(c.jack.n)
    case JackStartRead => JackReading(c.jack.n)
    case JackFinishRead => JackIdle
    case _ => c.jack
  }

  function NextEngine(c: State, s: Step): Engine
    requires Ready(c, s)
  {
    match s
    case CheckIoOutput => EngineChecked(FrameRing.Writable(c.output))
    case CheckIoInput => if Min(c.engine.avail, FrameRing.Readable(c.input)) >= c.block then EngineGo else EngineIdle
    case PcmRead => EngineReading(false)
    case EngineFinishRead => if c.engine.junk then EngineJunked else EngineRead
    case PcmWrite => if c.readCount < c.writeCount + 1 then EngineReading(true) else EngineJunked
    case EngineStartWrite(_) => EngineWriting
    case EngineFinishWrite => EngineIdle
    case EngineSkip => EngineIdle
    case _ => c.engine
  }

  /** The assertions behind the transfers: full blocks, and reads and writes in balance after a discarded read. */
  predicate Fails(c: State, s: Step)
    requires Ready(c, s)
  {
    match s
    case JackFinishWrite => c.input.producer.Writing? && c.input.producer.can != c.jack.n
    case JackFinishRead => c.output.consumer.Reading? && c.output.consumer.can != c.jack.n
    case EngineFinishRead =>
      (c.input.consumer.Reading? && c.input.consumer.can != c.block) || (c.engine.junk && c.readCount != c.writeCount)
    case EngineFinishWrite => c.output.producer.Writing? && c.output.producer.can != c.block
    case _ => false
  }

  function Apply(c: State, s: Step): State
    requires Enabled(c, s)
  {
    State(
      if InputStep(c, s).Some? then FrameRing.Apply(c.input, InputStep(c, s).value) else c.input,
      if OutputStep(c, s).Some? then FrameRing.Apply(c.output, OutputStep(c, s).value) else c.output,
      c.block, NextJack(c, s), NextEngine(c, s),
      if s.PcmRead? || (s.PcmWrite? && c.readCount < c.writeCount + 1) then c.readCount + 1 else c.readCount,
      if s.PcmWrite? then c.writeCount + 1 else c.writeCount,
      c.failed || Fails(c, s))
  }

  predicate Init(c: State) {
    && FrameRing.Init(c.input) && FrameRing.Init(c.output) && c.jack == JackIdle && c.engine == EngineIdle
    && c.readCount == 0 && c.writeCount == 0 && !c.failed
  }

  ghost predicate IsRun(c: State, steps: seq<Step>)
    decreases |steps|
  {
    steps == [] || (Enabled(c, steps[0]) && IsRun(Apply(c, steps[0]), steps[1..]))
  }

  ghost function Final(c: State, steps: seq<Step>): State
    requires IsRun(c, steps)
    decreases |steps|
  {
    if steps == [] then c else Final(Apply(c, steps[0]), steps[1..])
  }

  /** What the callback thread may rely on. */
  predicate JackOk(jack: Jack, input: FrameRing.Ring, output: FrameRing.Ring) {
    && (jack.JackChecked? || jack.JackGo? ==> jack.n <= FrameRing.Writable(input))
    && (jack.JackGo? || jack.JackWriting? || jack.JackWrote? ==> jack.n <= FrameRing.Readable(output))
    && (jack.JackWriting? <==> input.producer.Writing?)
    && (jack.JackWriting? ==> input.producer.can == jack.n)
    && (jack.JackReading? <==> output.consumer.Reading?)
    && (jack.JackReading? ==> output.consumer.can == jack.n)
  }

  /** What the engine thread may rely on. */
  predicate EngineOk(engine: Engine, input: FrameRing.Ring, output: FrameRing.Ring, block: nat) {
    && (engine.EngineChecked? ==> engine.avail <= FrameRing.Writable(output))
    && (engine.EngineGo? ==> block <= FrameRing.Readable(input))
    && (engine.EngineGo? || engine.EngineReading? || engine.EngineRead? || engine.EngineJunked?
        ==> block <= FrameRing.Writable(output))
    && (engine.EngineReading? <==> input.consumer.Reading?)
    && (engine.EngineReading? ==> input.consumer.can == block)
    && (engine.EngineWriting? <==> output.producer.Writing?)
    && (engine.EngineWriting? ==> output.producer.can == block)
  }

  predicate CountersOk(c: State) {
    && c.writeCount <= c.readCount
    && (c.engine.EngineReading? && c.engine.junk ==> c.readCount == c.writeCount)
    && (c.engine.EngineRead? || (c.engine.EngineReading? && !c.engine.junk) ==> c.writeCount < c.readCount)
  }

  ghost predicate Inv(c: State) {
    && FrameRing.Inv(c.input) && FrameRing.Inv(c.output)
    && JackOk(c.jack, c.input, c.output) && EngineOk(c.engine, c.input, c.output, c.block)
    && CountersOk(c) && !c.failed
  }

  /** A step on a ring as the other thread of that ring sees it, and as the acting thread does. */
  ghost predicate RingMoves(c: FrameRing.Ring, s: FrameRing.Step, d: FrameRing.Ring) {
    && FrameRing.Inv(d)
    && (FrameRing.OfProducer(s) ==> d.consumer == c.consumer && FrameRing.Readable(c) <= FrameRing.Readable(d))
    && (!FrameRing.OfProducer(s) ==> d.producer == c.producer && FrameRing.Writable(c) <= FrameRing.Writable(d))
    && (s.StartWrite? ==> d.producer.Writing? && (|s.data| <= FrameRing.Writable(c) ==> d.producer.can == |s.data|))
    && (s.CopyIn? && c.producer.Writing? ==> d.producer.Writing? && d.producer.can == c.producer.can)
    && (s.PublishWrite? ==> d.producer.NotWriting?)
    && (s.StartRead? ==> d.consumer.Reading? && (s.n <= FrameRing.Readable(c) ==> d.consumer.can == s.n))
    && (s.CopyOut? && c.consumer.Reading? ==> d.consumer.Reading? && d.consumer.can == c.consumer.can)
    && (s.PublishRead? ==> d.consumer.NotReading?)
  }

  lemma Moves(c: FrameRing.Ring, s: FrameRing.Step)
    requires FrameRing.Inv(c) && FrameRing.Enabled(c, s)
    ensures RingMoves(c, s, FrameRing.Apply(c, s))
  {
    hide FrameRing.Inv, FrameRing.Readable, FrameRing.Writable, FrameRing.Place, FrameRing.Returned;
    FrameRing.StepInv(c, s);
    FrameRing.SpaceLasts(c, s);
    FrameRing.OtherThread(c, s);
  }

  lemma JackStepInv(c: State, s: Step)
    requires Inv(c) && Enabled(c, s)
    requires InputStep(c, s).Some? ==> RingMoves(c.input, InputStep(c, s).value, Apply(c, s).input)
    requires OutputStep(c, s).Some? ==> RingMoves(c.output, OutputStep(c, s).value, Apply(c, s).output)
    ensures JackOk(Apply(c, s).jack, Apply(c, s).input, Apply(c, s).output)
  {
    hide FrameRing.Inv, FrameRing.Readable, FrameRing.Writable, FrameRing.Apply, FrameRing.Enabled;
  }

  lemma EngineStepInv(c: State, s: Step)
    requires Inv(c) && Enabled(c, s)
    requires InputStep(c, s).Some? ==> RingMoves(c.input, InputStep(c, s).value, Apply(c, s).input)
    requires OutputStep(c, s).Some? ==> RingMoves(c.output, OutputStep(c, s).value, Apply(c, s).output)
    ensures EngineOk(Apply(c, s).engine, Apply(c, s).input, Apply(c, s).output, c.block)
  {
    hide FrameRing.Inv, FrameRing.Readable, FrameRing.Writable, FrameRing.Apply, FrameRing.Enabled;
  }

  /** No assertion fails in a step. */
  lemma StepSound(c: State, s: Step)
    requires Inv(c) && Enabled(c, s)
    ensures !Fails(c, s) && CountersOk(Apply(c, s))
  {
    hide FrameRing.Inv, FrameRing.Readable, FrameRing.Writable, FrameRing.Apply, FrameRing.Enabled;
  }

  lemma StepInv(c: State, s: Step)
    requires Inv(c) && Enabled(c, s)
    ensures Inv(Apply(c, s))
  {
    hide FrameRing.Inv, JackOk, EngineOk, CountersOk, FrameRing.Apply, FrameRing.Enabled, NextJack, NextEngine, Ready;
    if InputStep(c, s).Some? { Moves(c.input, InputStep(c, s).value); }
    if OutputStep(c, s).Some? { Moves(c.output, OutputStep(c, s).value); }
    JackStepInv(c, s);
    EngineStepInv(c, s);
    StepSound(c, s);
  }

  lemma {:induction false} RunInvariant(c: State, steps: seq<Step>)
    requires Inv(c) && IsRun(c, steps)
    ensures Inv(Final(c, steps))
    decreases |steps|
  {
    hide Inv;
    if steps != [] {
      StepInv(c, steps[0]);
      RunInvariant(Apply(c, steps[0]), steps[1..]);
    }
  }

  /** In every interleaving, a block that was checked for is transferred in full: none of the assertions after the
      checks ever fails. What the engine reads is a prefix of what JACK delivered, and the other way round. */
  lemma FullBlocks(c: State, steps: seq<Step>)
    requires Init(c) && IsRun(c, steps)
    ensures var d := Final(c, steps);
            && !d.failed
            && d.input.books.read <= d.input.books.written
            && d.output.books.read <= d.output.books.written
  {
    FrameRing.InitInv(c.input);
    FrameRing.InitInv(c.output);
    RunInvariant(c, steps);
  }

  // ----- what the clients transfer, by the books of the rings

  /** The callback goes on exactly when the input ring has space for its frames and the output ring has frames for it;
      the engine exactly when there was space for a block when it looked, and there is a block to read. */
  lemma GoesExactly(c: State, s: Step)
    requires Inv(c) && Enabled(c, s)
    ensures var d := Apply(c, s);
            && (s.Callback? ==> d.jack == if s.n <= FrameRing.Space(c.input) then JackChecked(s.n) else JackIdle)
            && (s.JackCheckOutput? ==>
                d.jack == if c.jack.n <= FrameRing.Unread(c.output) then JackGo(c.jack.n) else JackIdle)
            && (s.CheckIoOutput? ==> d.engine == EngineChecked(FrameRing.Space(c.output)))
            && (s.CheckIoInput? ==>
                  d.engine == if c.block <= c.engine.avail && c.block <= FrameRing.Unread(c.input) then EngineGo
                              else EngineIdle)
  {
    hide JackOk, EngineOk, FrameRing.Readable, FrameRing.Writable, FrameRing.Apply, FrameRing.Enabled;
    FrameRing.Counts(c.input);
    FrameRing.Counts(c.output);
  }

  /** What each completed transfer adds to the books: all frames of the callback, and whole blocks of the engine. */
  lemma TransfersExactly(c: State, s: Step)
    requires Inv(c) && Enabled(c, s)
    ensures var d := Apply(c, s);
            && (s.JackFinishWrite? ==> |d.input.books.written| == |c.input.books.written| + c.jack.n)
            && (s.JackFinishRead? ==> |d.output.books.read| == |c.output.books.read| + c.jack.n)
            && (s.EngineFinishRead? ==> |d.input.books.read| == |c.input.books.read| + c.block)
            && (s.EngineFinishWrite? ==> |d.output.books.written| == |c.output.books.written| + c.block)
            && (!s.JackFinishWrite? ==> d.input.books.written == c.input.books.written)
            && (!s.JackFinishRead? ==> d.output.books.read == c.output.books.read)
            && (!s.EngineFinishRead? ==> d.input.books.read == c.input.books.read)
            && (!s.EngineFinishWrite? ==> d.output.books.written == c.output.books.written)
  {
    hide FrameRing.Inv, FrameRing.Readable, FrameRing.Writable, FrameRing.Apply, FrameRing.Enabled;
    if InputStep(c, s).Some? { Published(c.input, InputStep(c, s).value); }
    if OutputStep(c, s).Some? { Published(c.output, OutputStep(c, s).value); }
  }

  lemma Published(c: FrameRing.Ring, s: FrameRing.Step)
    requires FrameRing.Inv(c) && FrameRing.Enabled(c, s)
    ensures var d := FrameRing.Apply(c, s);
            && (s.PublishWrite? ==> |d.books.written| == |c.books.written| + c.producer.can)
            && (s.PublishWrite? ==> d.books.read == c.books.read)
            && (s.PublishRead? ==> |d.books.read| == |c.books.read| + c.consumer.can)
            && (s.PublishRead? ==> d.books.written == c.books.written)
            && (!s.PublishWrite? && !s.PublishRead? ==> d.books == c.books)
  {
    hide FrameRing.Stored, FrameRing.Slot, FrameRing.Holds, FrameRing.Returned;
    if s.PublishRead? { FrameRing.PublishReadInv(c); FrameRing.ReaderFacts(c); }
  }

  lemma Cons(c: State, s: Step, rest: seq<Step>) returns (steps: seq<Step>)
    requires Enabled(c, s) && IsRun(Apply(c, s), rest)
    ensures steps == [s] + rest && IsRun(c, steps) && Final(c, steps) == Final(Apply(c, s), rest)
  {
    steps := [s] + rest;
    assert steps[1..] == rest;
  }

  lemma Nothing(c: State)
    ensures IsRun(c, []) && Final(c, []) == c
  {
  }

  predicate OfEngine(s: Step) {
    || s.CheckIoOutput? || s.CheckIoInput? || s.PcmRead? || s.EngineCopyOut? || s.EngineFinishRead? || s.PcmWrite?
    || s.EngineStartWrite? || s.EngineCopyIn? || s.EngineFinishWrite? || s.EngineSkip?
  }

  /** The engine's write to the output ring ends. */
  lemma {:induction false} EngineWriteEnds(c: State) returns (steps: seq<Step>)
    requires Inv(c) && c.engine.EngineWriting?
    ensures IsRun(c, steps) && forall s :: s in steps ==> OfEngine(s)
    ensures var d := Final(c, steps);
            && d.engine.EngineIdle? && d.input == c.input && d.output.books.read == c.output.books.read
            && c.output.producer.Writing? && c.output.producer.can == c.block <= |c.output.producer.data|
            && d.output.books.written == c.output.books.written + c.output.producer.data[..c.block]
    decreases c.output.channels - c.output.producer.ch, c.output.producer.can - c.output.producer.k
  {
    hide Inv, Final, IsRun;
    WritingFacts(c);
    FrameRing.WriterFacts(c.output);
    FrameRing.CopiesInBounds(c.output);
    if c.output.producer.ch < c.output.channels {
      StepInv(c, EngineCopyIn);
      steps := EngineWriteEnds(Apply(c, EngineCopyIn));
      steps := Cons(c, EngineCopyIn, steps);
    } else {
      Nothing(Apply(c, EngineFinishWrite));
      steps := Cons(c, EngineFinishWrite, []);
    }
  }

  lemma WritingFacts(c: State)
    requires Inv(c)
    ensures FrameRing.Inv(c.input) && FrameRing.Inv(c.output)
    ensures c.engine.EngineWriting? ==> c.output.producer.Writing? && c.output.producer.can == c.block
    ensures c.engine.EngineReading? ==> c.input.consumer.Reading? && c.input.consumer.can == c.block
  {
  }

  /** The engine's read from the input ring ends. */
  lemma {:induction false} EngineReadEnds(c: State) returns (steps: seq<Step>)
    requires Inv(c) && c.engine.EngineReading?
    ensures IsRun(c, steps) && Inv(Final(c, steps)) && forall s :: s in steps ==> OfEngine(s)
    ensures var d := Final(c, steps);
            && d.engine == (if c.engine.junk then EngineJunked else EngineRead)
            && d.output == c.output && d.block == c.block
            && d.input.books.written == c.input.books.written && |d.input.books.read| == |c.input.books.read| + c.block
            && d.readCount == c.readCount && d.writeCount == c.writeCount
    decreases c.input.channels - c.input.consumer.ch, c.input.consumer.can - c.input.consumer.k
  {
    hide Inv, Final, IsRun, FrameRing.Returned;
    WritingFacts(c);
    FrameRing.ReaderFacts(c.input);
    FrameRing.CopiesInBounds(c.input);
    if c.input.consumer.ch < c.input.channels {
      StepInv(c, EngineCopyOut);
      steps := EngineReadEnds(Apply(c, EngineCopyOut));
      steps := Cons(c, EngineCopyOut, steps);
    } else {
      StepInv(c, EngineFinishRead);
      TransfersExactly(c, EngineFinishRead);
      Nothing(Apply(c, EngineFinishRead));
      steps := Cons(c, EngineFinishRead, []);
    }
  }

  lemma {:induction false} Then(c: State, first: seq<Step>, second: seq<Step>) returns (steps: seq<Step>)
    requires IsRun(c, first) && IsRun(Final(c, first), second)
    ensures steps == first + second && IsRun(c, steps) && Final(c, steps) == Final(Final(c, first), second)
    decreases |first|
  {
    hide Enabled, Apply;
    if first == [] {
      steps := second;
    } else {
      steps := Then(Apply(c, first[0]), first[1..], second);
      steps := Cons(c, first[0], steps);
    }
  }

  /** With a block to read and space for a block, by the books, the engine alone reads one and writes one. */
  lemma EngineCycle(c: State, data: seq<FrameRing.Frame>) returns (steps: seq<Step>)
    requires Inv(c) && c.engine.EngineIdle?
    requires c.block <= FrameRing.Unread(c.input) && c.block <= FrameRing.Space(c.output)
    requires |data| == c.block && forall f :: f in data ==> |f| == c.output.channels
    ensures IsRun(c, steps) && forall s :: s in steps ==> OfEngine(s)
    ensures var d := Final(c, steps);
            && d.engine.EngineIdle? && |d.input.books.read| == |c.input.books.read| + c.block
            && d.output.books.written == c.output.books.written + data
  {
    hide Inv, Final, IsRun, FrameRing.Unread, FrameRing.Space, FrameRing.Readable, FrameRing.Writable;
    var first := EngineToRead(c);
    var d := Final(c, first);
    var second := EngineReadEnds(d);
    steps := Then(c, first, second);
    var e := Final(d, second);
    var third := EngineWrites(e, data);
    steps := Then(c, steps, third);
  }

  /** From pcm_check_io() to the start of the read. */
  lemma EngineToRead(c: State) returns (steps: seq<Step>)
    requires Inv(c) && c.engine.EngineIdle?
    requires c.block <= FrameRing.Unread(c.input) && c.block <= FrameRing.Space(c.output)
    ensures IsRun(c, steps) && Inv(Final(c, steps)) && forall s :: s in steps ==> OfEngine(s)
    ensures var d := Final(c, steps);
            && d.engine == EngineReading(false) && d.output == c.output && d.block == c.block
            && d.input.books == c.input.books
  {
    hide Inv, Final, IsRun, FrameRing.Unread, FrameRing.Space, FrameRing.Readable, FrameRing.Writable;
    GoesExactly(c, CheckIoOutput);
    StepInv(c, CheckIoOutput);
    var c1 := Apply(c, CheckIoOutput);
    GoesExactly(c1, CheckIoInput);
    StepInv(c1, CheckIoInput);
    var c2 := Apply(c1, CheckIoInput);
    NotReading(c2);
    StepInv(c2, PcmRead);
    Nothing(Apply(c2, PcmRead));
    steps := Cons(c2, PcmRead, []);
    steps := Cons(c1, CheckIoInput, steps);
    steps := Cons(c, CheckIoOutput, steps);
  }

  lemma NotReading(c: State)
    requires Inv(c)
    ensures !c.engine.EngineReading? ==> c.input.consumer.NotReading?
    ensures !c.engine.EngineWriting? ==> c.output.producer.NotWriting?
    ensures c.engine.EngineRead? ==> c.writeCount < c.readCount
    ensures c.engine.EngineRead? || c.engine.EngineJunked? ==> c.block <= FrameRing.Writable(c.output)
  {
    hide FrameRing.Inv, FrameRing.Writable, FrameRing.Readable;
  }

  /** From pcm_write() after a read to the end of the write. */
  lemma EngineWrites(c: State, data: seq<FrameRing.Frame>) returns (steps: seq<Step>)
    requires Inv(c) && c.engine.EngineRead?
    requires |data| == c.block && forall f :: f in data ==> |f| == c.output.channels
    ensures IsRun(c, steps) && forall s :: s in steps ==> OfEngine(s)
    ensures var d := Final(c, steps);
            && d.engine.EngineIdle? && d.input == c.input && d.output.books.written == c.output.books.written + data
  {
    hide Inv, Final, IsRun, FrameRing.Readable, FrameRing.Writable;
    NotReading(c);
    StepInv(c, PcmWrite);
    var c1 := Apply(c, PcmWrite);
    StepInv(c1, EngineStartWrite(data));
    var c2 := Apply(c1, EngineStartWrite(data));
    steps := EngineWriteEnds(c2);
    assert data[..|data|] == data;
    steps := Cons(c1, EngineStartWrite(data), steps);
    steps := Cons(c, PcmWrite, steps);
  }

  predicate OfJack(s: Step) { !OfEngine(s) }

  lemma CallbackFacts(c: State)
    requires Inv(c)
    ensures FrameRing.Inv(c.input) && FrameRing.Inv(c.output)
    ensures c.jack.JackWriting? <==> c.input.producer.Writing?
    ensures c.jack.JackReading? <==> c.output.consumer.Reading?
    ensures c.jack.JackWriting? ==> c.input.producer.can == c.jack.n
    ensures c.jack.JackReading? ==> c.output.consumer.can == c.jack.n
    ensures c.jack.JackGo? ==> c.jack.n <= FrameRing.Writable(c.input)
  {
  }

  /** The callback's write to the input ring ends. */
  lemma {:induction false} JackWriteEnds(c: State) returns (steps: seq<Step>)
    requires Inv(c) && c.jack.JackWriting?
    ensures IsRun(c, steps) && Inv(Final(c, steps)) && forall s :: s in steps ==> OfJack(s)
    ensures var d := Final(c, steps);
            && d.jack == JackWrote(c.jack.n) && d.output == c.output
            && c.input.producer.Writing? && c.input.producer.can == c.jack.n <= |c.input.producer.data|
            && d.input.books.written == c.input.books.written + c.input.producer.data[..c.jack.n]
    decreases c.input.channels - c.input.producer.ch, c.input.producer.can - c.input.producer.k
  {
    hide Inv, Final, IsRun;
    CallbackFacts(c);
    FrameRing.WriterFacts(c.input);
    FrameRing.CopiesInBounds(c.input);
    if c.input.producer.ch < c.input.channels {
      StepInv(c, JackCopyIn);
      steps := JackWriteEnds(Apply(c, JackCopyIn));
      steps := Cons(c, JackCopyIn, steps);
    } else {
      StepInv(c, JackFinishWrite);
      Nothing(Apply(c, JackFinishWrite));
      steps := Cons(c, JackFinishWrite, []);
    }
  }

  /** The callback's read from the output ring ends. */
  lemma {:induction false} JackReadEnds(c: State) returns (steps: seq<Step>)
    requires Inv(c) && c.jack.JackReading?
    ensures IsRun(c, steps) && forall s :: s in steps ==> OfJack(s)
    ensures var d := Final(c, steps);
            && d.jack == JackIdle && d.input == c.input
            && |d.output.books.read| == |c.output.books.read| + c.jack.n
    decreases c.output.channels - c.output.consumer.ch, c.output.consumer.can - c.output.consumer.k
  {
    hide Inv, Final, IsRun, FrameRing.Returned;
    CallbackFacts(c);
    FrameRing.ReaderFacts(c.output);
    FrameRing.CopiesInBounds(c.output);
    if c.output.consumer.ch < c.output.channels {
      StepInv(c, JackCopyOut);
      steps := JackReadEnds(Apply(c, JackCopyOut));
      steps := Cons(c, JackCopyOut, steps);
    } else {
      TransfersExactly(c, JackFinishRead);
      Nothing(Apply(c, JackFinishRead));
      steps := Cons(c, JackFinishRead, []);
    }
  }

  /** With space and frames for it, by the books, the callback alone writes its n frames and reads n. */
  lemma CallbackCycle(c: State, data: seq<FrameRing.Frame>) returns (steps: seq<Step>)
    requires Inv(c) && c.jack.JackIdle? && forall f :: f in data ==> |f| == c.input.channels
    requires |data| <= FrameRing.Space(c.input) && |data| <= FrameRing.Unread(c.output)
    ensures IsRun(c, steps) && forall s :: s in steps ==> OfJack(s)
    ensures var d := Final(c, steps);
            && d.jack.JackIdle? && d.input.books.written == c.input.books.written + data
            && |d.output.books.read| == |c.output.books.read| + |data|
  {
    hide Inv, Final, IsRun, FrameRing.Unread, FrameRing.Space, FrameRing.Readable, FrameRing.Writable;
    var first := CallbackWrites(c, data);
    var d := Final(c, first);
    CallbackFacts(d);
    StepInv(d, JackStartRead);
    var second := JackReadEnds(Apply(d, JackStartRead));
    second := Cons(d, JackStartRead, second);
    steps := Then(c, first, second);
  }

  lemma CallbackWrites(c: State, data: seq<FrameRing.Frame>) returns (steps: seq<Step>)
    requires Inv(c) && c.jack.JackIdle? && forall f :: f in data ==> |f| == c.input.channels
    requires |data| <= FrameRing.Space(c.input) && |data| <= FrameRing.Unread(c.output)
    ensures IsRun(c, steps) && Inv(Final(c, steps)) && forall s :: s in steps ==> OfJack(s)
    ensures var d := Final(c, steps);
            && d.jack == JackWrote(|data|) && d.output == c.output
            && d.input.books.written == c.input.books.written + data
  {
    hide Inv, Final, IsRun, Apply, Enabled, FrameRing.Unread, FrameRing.Space, FrameRing.Readable, FrameRing.Writable;
    var first := CallbackChecks(c, |data|);
    var second := CheckedWrites(Final(c, first), data);
    steps := Then(c, first, second);
  }

  lemma CallbackChecks(c: State, n: nat) returns (steps: seq<Step>)
    requires Inv(c) && c.jack.JackIdle? && n <= FrameRing.Space(c.input) && n <= FrameRing.Unread(c.output)
    ensures IsRun(c, steps) && Inv(Final(c, steps)) && forall s :: s in steps ==> OfJack(s)
    ensures Final(c, steps) == c.(jack := JackGo(n))
  {
    hide Inv, Final, IsRun, FrameRing.Unread, FrameRing.Space, FrameRing.Readable, FrameRing.Writable;
    GoesExactly(c, Callback(n));
    StepInv(c, Callback(n));
    var c1 := Apply(c, Callback(n));
    GoesExactly(c1, JackCheckOutput);
    StepInv(c1, JackCheckOutput);
    Nothing(Apply(c1, JackCheckOutput));
    steps := Cons(c1, JackCheckOutput, []);
    steps := Cons(c, Callback(n), steps);
  }

  lemma CheckedWrites(c: State, data: seq<FrameRing.Frame>) returns (steps: seq<Step>)
    requires Inv(c) && c.jack == JackGo(|data|) && forall f :: f in data ==> |f| == c.input.channels
    ensures IsRun(c, steps) && Inv(Final(c, steps)) && forall s :: s in steps ==> OfJack(s)
    ensures var d := Final(c, steps);
            && d.jack == JackWrote(|data|) && d.output == c.output
            && d.input.books.written == c.input.books.written + data
  {
    hide Inv, Final, IsRun, FrameRing.Readable, FrameRing.Writable;
    CallbackFacts(c);
    StepInv(c, JackStartWrite(data));
    steps := JackWriteEnds(Apply(c, JackStartWrite(data)));
    assert data[..|data|] == data;
    steps := Cons(c, JackStartWrite(data), steps);
  }
}
