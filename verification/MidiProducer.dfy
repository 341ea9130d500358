/** MidiProducerImpl: plays the generators of a feed and keeps the note-offs that are not due yet. */
module MidiProducer {
  import opened Basics
  import opened SortedLists
  import opened ClipNotes
  import opened ClipGenerator

  /** backward_cmp_ticks */
  function CompareBackward(a: Timed, b: Timed): int { b.tick - a.tick }

  lemma BackwardLawful()
    ensures Lawful(CompareBackward)
  {
  }

  /** The stack of future events: note-offs, the next one due at the back. */
  ghost predicate StackOk(stack: seq<Timed>) {
    && (forall i, j :: 0 <= i < j < |stack| ==> stack[j].tick <= stack[i].tick)
    && (forall e :: e in stack ==> e.event.kind == NoteOff)
  }

  ghost predicate AllFrom(stack: seq<Timed>, tick: int) {
    forall e :: e in stack ==> tick <= e.tick
  }

  lemma StackSorted(stack: seq<Timed>)
    requires StackOk(stack)
    ensures Sorted(CompareBackward, stack)
  {
  }

  lemma InsertedOk(stack: seq<Timed>, e: Timed, pos: nat)
    requires StackOk(stack) && pos <= |stack| && e.event.kind == NoteOff
    requires forall k :: 0 <= k < pos ==> e.tick <= stack[k].tick
    requires forall k :: pos <= k < |stack| ==> stack[k].tick <= e.tick
    ensures StackOk(stack[..pos] + [e] + stack[pos..])
    ensures multiset(stack[..pos] + [e] + stack[pos..]) == multiset(stack) + multiset{e}
    ensures forall tick :: AllFrom(stack, tick) && tick <= e.tick ==> AllFrom(stack[..pos] + [e] + stack[pos..], tick)
  {
    var s := stack[..pos] + [e] + stack[pos..];
    InsertedElements(stack, e, pos);
    forall i, j | 0 <= i < j < |s| ensures s[j].tick <= s[i].tick {
      assert s[i] == if i < pos then stack[i] else if i == pos then e else stack[i - 1];
      assert s[j] == if j < pos then stack[j] else if j == pos then e else stack[j - 1];
    }
  }

  lemma InsertedElements<T>(s: seq<T>, e: T, pos: nat)
    requires pos <= |s|
    ensures multiset(s[..pos] + [e] + s[pos..]) == multiset(s) + multiset{e}
    ensures forall y :: y in s[..pos] + [e] + s[pos..] <==> y == e || y in s
  {
    assert s == s[..pos] + s[pos..];
    assert forall y :: y in s <==> y in s[..pos] || y in s[pos..];
  }

  /** Note-ons of a stretch of playback lie within it. */
  lemma {:induction false} EmitOns(notes: seq<Note>, shift: int, x: int)
    requires forall n :: n in notes ==> n.tick + shift == x
    ensures forall e :: e in Emit(notes, shift) && e.event.kind == NoteOn ==> e.tick == x
  {
    if notes != [] {
      EmitOns(notes[1..], shift, x);
    }
  }

  lemma {:induction false} NotesAtTicks(notes: seq<Note>, p: int)
    ensures forall n :: n in NotesAt(notes, p) ==> n.tick == p
  {
    if notes != [] {
      NotesAtTicks(notes[1..], p);
    }
  }

  lemma {:induction false} PlayedOns(l: Loop, notes: seq<Note>, lo: nat, hi: nat)
    ensures forall e :: e in Played(l, notes, lo, hi) && e.event.kind == NoteOn ==> lo <= e.tick < hi
  {
    hide Emit, NotesAt, Pos;
    if lo < hi {
      PlayedOns(l, notes, lo, hi - 1);
      var p := Pos(l, hi - 1);
      NotesAtTicks(notes, p);
      EmitOns(NotesAt(notes, p), hi - 1 - p, hi - 1);
    }
  }

  /** What was played so far, followed by the rest of the reference block, is the whole reference block. */
  ghost predicate StillPlaying(all: (Playing, seq<Timed>), p: Playing, scout: seq<int>, end: int, bar: int,
                               barTicks: int, done: seq<Timed>)
    requires Scouts(scout, |p.gens|) && 0 < barTicks
  {
    var (q, rest) := Block(p, scout, end, bar, barTicks);
    all == (q, done + rest)
  }

  lemma BlockStarts(p: Playing, scout: seq<int>, end: int, bar: int, barTicks: int)
    requires Scouts(scout, |p.gens|) && 0 < barTicks
    ensures StillPlaying(Block(p, scout, end, bar, barTicks), p, scout, end, bar, barTicks, [])
  {
    hide Block;
    var rest := Block(p, scout, end, bar, barTicks).1;
    assert [] + rest == rest;
  }

  lemma BlockGoesOn(all: (Playing, seq<Timed>), p: Playing, scout: seq<int>, end: int, bar: int, barTicks: int,
                    done: seq<Timed>)
    requires Scouts(scout, |p.gens|) && 0 < barTicks && StillPlaying(all, p, scout, end, bar, barTicks, done)
    requires p.Active() && p.Point() < end
    ensures |Turn(p, scout, end, bar, barTicks).gens| == |p.gens|
    ensures StillPlaying(all, Turn(p, scout, end, bar, barTicks), scout, end, bar, barTicks, done + TurnEvents(p, end))
  {
    hide Turn, TurnEvents;
    TurnNearer(p, scout, end, bar, barTicks);
    var rest := Block(Turn(p, scout, end, bar, barTicks), scout, end, bar, barTicks).1;
    assert done + (TurnEvents(p, end) + rest) == (done + TurnEvents(p, end)) + rest;
  }

  lemma BlockEnds(all: (Playing, seq<Timed>), p: Playing, scout: seq<int>, end: int, bar: int, barTicks: int,
                  done: seq<Timed>)
    requires Scouts(scout, |p.gens|) && 0 < barTicks && StillPlaying(all, p, scout, end, bar, barTicks, done)
    requires !(p.Active() && p.Point() < end)
    ensures all == (p, done)
  {
    assert done + [] == done;
  }

  lemma NothingDue(end: int)
    ensures Due([], end)
  {
  }

  lemma OneMore(m: multiset<Timed>, s: seq<Timed>, e: Timed)
    ensures m + multiset(s + [e]) == (m + multiset(s)) + multiset{e}
  {
  }

  lemma OneMoreDue(a: seq<Timed>, e: Timed, end: int)
    requires Due(a, end) && e.tick < end
    ensures Due(a + [e], end)
  {
  }

  lemma BothDue(a: seq<Timed>, b: seq<Timed>, end: int)
    requires Due(a, end) && Due(b, end)
    ensures Due(a + b, end)
  {
  }

  // ----- reference: the clips played in a block, as values

  /** The generators of a feed, the current one, and the engine tick at which it started. */
  datatype Playing = Playing(gens: seq<Gen>, current: int, start: int) {
    predicate Active() { 0 <= current < |gens| }

    /** The engine tick reached. */
    function Point(): int
      requires Active()
    {
      start + gens[current].x
    }

    predicate Ended() { Active() && gens[current].Ended() }

    /** What is left of a block that ends at tick `end`. */
    function Left(end: int): nat { if Active() then Max(0, end - Point()) + 1 else 0 }
  }

  predicate Scouts(scout: seq<int>, n: nat) {
    |scout| == n && forall i :: 0 <= i < n ==> -1 <= scout[i] < n
  }

  /** The first bar at or after the given tick, counted from a bar. */
  function NextBar(bar: int, barTicks: int, tick: int): int
    requires 0 < barTicks
    decreases tick - bar
  {
    if bar < tick then NextBar(bar + barTicks, barTicks, tick) else bar
  }

  lemma {:induction false} NextBarAfter(bar: int, barTicks: int, tick: int)
    requires 0 < barTicks
    ensures tick <= NextBar(bar, barTicks, tick) && (bar < tick ==> NextBar(bar, barTicks, tick) < tick + barTicks)
    decreases tick - bar
  {
    if bar < tick {
      NextBarAfter(bar + barTicks, barTicks, tick);
    }
  }

  function Rewound(gens: seq<Gen>, i: nat, position: int): seq<Gen>
    requires i < |gens|
  {
    gens[i := gens[i].(x := Min(position, gens[i].last))]
  }

  /** Succession: when the current clip has ended, the next one starts at a bar. */
  function Succession(p: Playing, scout: seq<int>, bar: int, barTicks: int): Playing
    requires p.Active() && Scouts(scout, |p.gens|) && 0 < barTicks
  {
    if !p.Ended() then p
    else if scout[p.current] < 0 then p.(current := -1, start := -1)
    else
      var next := p.(gens := Rewound(p.gens, scout[p.current], 0), current := scout[p.current],
                     start := NextBar(bar, barTicks, p.Point()));
      if next.Ended() then next.(current := -1, start := -1) else next
  }

  /** From p to q, when the current clip of p has ended: the clip that follows in the order is current and at its
      beginning, and starts at a bar, the first one that is not before the end of the last clip; or there is none, or
      it has nothing to play, and nothing is current. */
  ghost predicate NextStarts(p: Playing, q: Playing, scout: seq<int>, bar: int, barTicks: int)
    requires p.Active() && Scouts(scout, |p.gens|)
  {
    var next := scout[p.current];
    && |q.gens| == |p.gens|
    && (q.current == -1 <==> next == -1 || p.gens[next].last == 0)
    && (q.current == -1 ==> q.start == -1)
    && (q.current != -1 ==> q.current == next && q.gens[next] == p.gens[next].(x := 0))
    && (q.current != -1 ==> StartsAt(q.start, p.Point(), bar, barTicks))
  }

  /** The first bar from `point` on, if that is not before the bar given. */
  ghost predicate StartsAt(start: int, point: int, bar: int, barTicks: int) {
    && point <= start && (bar < point ==> start < point + barTicks) && (point <= bar ==> start == bar)
    && exists bars: nat :: start == AfterBars(bar, bars, barTicks)
  }

  function AfterBars(bar: int, bars: nat, barTicks: int): int { bar + bars * barTicks }

  lemma {:induction false} NextBarStarts(bar: int, barTicks: int, point: int)
    requires 0 < barTicks
    ensures StartsAt(NextBar(bar, barTicks, point), point, bar, barTicks)
    decreases point - bar
  {
    NextBarAfter(bar, barTicks, point);
    if bar < point {
      NextBarStarts(bar + barTicks, barTicks, point);
      var bars: nat :| NextBar(bar, barTicks, point) == AfterBars(bar + barTicks, bars, barTicks);
      assert (bars + 1) * barTicks == bars * barTicks + barTicks;
      assert NextBar(bar, barTicks, point) == AfterBars(bar, bars + 1, barTicks);
    } else {
      assert bar == AfterBars(bar, 0, barTicks);
    }
  }

  lemma NextClipStarts(p: Playing, scout: seq<int>, bar: int, barTicks: int)
    requires p.Active() && p.Ended() && Scouts(scout, |p.gens|) && 0 < barTicks
    requires forall i :: 0 <= i < |p.gens| ==> 0 <= p.gens[i].last
    ensures NextStarts(p, Succession(p, scout, bar, barTicks), scout, bar, barTicks)
  {
    hide StartsAt, NextBar;
    NextBarStarts(bar, barTicks, p.Point());
  }

  function Advanced(p: Playing, end: int): Playing
    requires p.Active()
  {
    p.(gens := p.gens[p.current := p.gens[p.current].Advanced(end - p.start)])
  }

  /** The events of a turn, at engine ticks. */
  function TurnEvents(p: Playing, end: int): seq<Timed>
    requires p.Active()
  {
    Shifted(p.gens[p.current].Plays(end - p.start), p.start)
  }

  lemma ShiftSounds(events: seq<Timed>, start: int, m: nat, n: Note, x: int)
    requires SoundsIn(events, m, n, x)
    ensures SoundsIn(Shifted(events, start), m, n, start + x)
  {
  }

  /** The m-th pair of events is a note that the current clip meets at tick x, at the engine tick it stands for. */
  ghost predicate MetInTurn(p: Playing, end: int, out: seq<Timed>, m: nat)
    requires p.Active()
  {
    exists n, x: nat :: MetByClip(p, end, n, x) && SoundsIn(out, m, n, p.start + x)
  }

  predicate MetByClip(p: Playing, end: int, n: Note, x: nat)
    requires p.Active()
  {
    var g := p.gens[p.current];
    g.x <= x < Min(end - p.start, g.last) && n in g.notes && n.tick == Pos(g.loop, x)
  }

  ghost predicate HeardAt(out: seq<Timed>, n: Note, tick: int) {
    exists m: nat :: SoundsIn(out, m, n, tick)
  }

  /** A turn sounds exactly the notes that the current clip has between its play position and the end of the block,
      or its own end, at the engine ticks from its start on, each on its own channel and key. */
  lemma TurnSounds(p: Playing, end: int)
    requires p.Active() && !p.gens[p.current].muted && p.Point() < end && !p.Ended() && 0 <= p.gens[p.current].last
    ensures var out := TurnEvents(p, end);
            && |out| % 2 == 0 && (forall m: nat :: m < |out| / 2 ==> MetInTurn(p, end, out, m))
            && forall n, x: nat :: MetByClip(p, end, n, x) ==> HeardAt(out, n, p.start + x)
  {
    hide Sounds, Pos, Played;
    var g := p.gens[p.current];
    var lo, hi := Max(g.x, 0), Max(g.Advanced(end - p.start).x, 0);
    var events, out := g.Plays(end - p.start), TurnEvents(p, end);
    PlayedSounds(g.loop, g.notes, lo, hi);
    forall m: nat | m < |out| / 2 ensures MetInTurn(p, end, out, m) {
      assert Met(g.loop, g.notes, lo, hi, events, m);
      var n, x: nat :| Meets(g.loop, g.notes, lo, hi, n, x) && SoundsIn(events, m, n, x);
      ShiftSounds(events, p.start, m, n, x);
      assert MetByClip(p, end, n, x);
    }
    forall n, x: nat | MetByClip(p, end, n, x) ensures HeardAt(out, n, p.start + x) {
      assert Meets(g.loop, g.notes, lo, hi, n, x) && Heard(events, n, x);
      var m: nat :| SoundsIn(events, m, n, x);
      ShiftSounds(events, p.start, m, n, x);
    }
  }

  function Turn(p: Playing, scout: seq<int>, end: int, bar: int, barTicks: int): Playing
    requires p.Active() && Scouts(scout, |p.gens|) && 0 < barTicks
  {
    Succession(Advanced(p, end), scout, bar, barTicks)
  }

  /** A turn gets nearer to the end of the block, or leaves a finished clip. */
  lemma TurnNearer(p: Playing, scout: seq<int>, end: int, bar: int, barTicks: int)
    requires p.Active() && Scouts(scout, |p.gens|) && 0 < barTicks && p.Point() < end
    ensures var q := Turn(p, scout, end, bar, barTicks);
            q.Left(end) < p.Left(end) || (q.Left(end) == p.Left(end) && p.Ended() && !q.Ended())
    ensures |Turn(p, scout, end, bar, barTicks).gens| == |p.gens|
  {
    NextBarAfter(bar, barTicks, Advanced(p, end).Point());
  }

  /** All that is played until the end of a block, clip after clip. */
  function Block(p: Playing, scout: seq<int>, end: int, bar: int, barTicks: int): (Playing, seq<Timed>)
    requires Scouts(scout, |p.gens|) && 0 < barTicks
    decreases p.Left(end), if p.Ended() then 1 else 0
  {
    if p.Active() && p.Point() < end then
      TurnNearer(p, scout, end, bar, barTicks);
      var (q, rest) := Block(Turn(p, scout, end, bar, barTicks), scout, end, bar, barTicks);
      (q, TurnEvents(p, end) + rest)
    else (p, [])
  }

  class Producer {
    var hasFeed: bool
    var generators: seq<Generator>
    /** The succession order of the clips. */
    var scout: seq<int>
    var current: int
    var tick: int
    var generatorStart: int
    var mustFlush: bool
    var futureStack: seq<Timed>
    /** Every event the generators handed over, and every event that was output, at engine ticks. */
    ghost var handed: multiset<Timed>
    ghost var sent: multiset<Timed>

    /** No event is lost or doubled: what was handed over was output or waits on the stack. */
    ghost predicate Books()
      reads `futureStack, `handed, `sent
    {
      StackOk(futureStack) && handed == sent + multiset(futureStack)
    }

    ghost predicate GeneratorsOk()
      reads `generators, generators
    {
      && (forall i, j :: 0 <= i < j < |generators| ==> generators[i] != generators[j])
      && (forall i :: 0 <= i < |generators| ==> generators[i].Playable())
    }

    ghost predicate FeedOk()
      reads `hasFeed, `generators, `scout, `current, generators
      ensures FeedOk() ==> -1 <= current < |generators| && Scouts(scout, |generators|) && (current >= 0 ==> hasFeed)
    {
      && GeneratorsOk()
      && Scouts(scout, |generators|)
      && -1 <= current < |generators|
      && (current >= 0 ==> hasFeed)
    }

    ghost predicate Valid()
      reads this, generators
    {
      Books() && FeedOk()
    }

    constructor ()
      ensures Valid() && handed == multiset{} && sent == multiset{} && generators == []
    {
      hasFeed, generators, scout := false, [], [];
      current, tick, generatorStart, mustFlush, futureStack := -1, -1, -1, false, [];
      handed, sent := multiset{}, multiset{};
    }

    /** Outputs all waiting note-offs and empties the stack. */
    method Flush() returns (out: seq<Timed>)
      requires Books()
      modifies `futureStack, `sent
      ensures Books() && futureStack == []
      ensures sent == old(sent) + multiset(out) && multiset(out) == multiset(old(futureStack))
    {
      hide StackOk;
      EmptyStack();
      out := [];
      assert futureStack[..|futureStack|] == futureStack;
      var i := |futureStack| - 1;
      while i >= 0
        modifies {}
        invariant -1 <= i < |futureStack|
        invariant multiset(out) + multiset(futureStack[..i + 1]) == multiset(futureStack)
      {
        var tnote := futureStack[i];
        FlushStep(futureStack, i);
        if tnote.event.kind == NoteOff {
          out := out + [tnote];
        }
        i := i - 1;
      }
      sent := sent + multiset(out);
      futureStack := [];
    }

    /** Pops and outputs the events that are due. */
    method PopDue(end: int) returns (out: seq<Timed>)
      requires Books()
      modifies `futureStack, `sent
      ensures Books() && AllFrom(futureStack, end)
      ensures sent == old(sent) + multiset(out) && Due(out, end)
      ensures multiset(old(futureStack)) == multiset(out) + multiset(futureStack)
      ensures old(futureStack) == [] ==> out == [] && futureStack == []
    {
      hide StackOk, AllFrom;
      out := [];
      while |futureStack| > 0 && Last(futureStack).tick < end
        modifies `futureStack
        invariant StackOk(futureStack) && multiset(old(futureStack)) == multiset(out) + multiset(futureStack)
                  && Due(out, end)
        invariant old(futureStack) == [] ==> out == [] && futureStack == []
        decreases |futureStack|
      {
        PoppedOk(futureStack);
        var tnote := Last(futureStack);
        futureStack := futureStack[..|futureStack| - 1];
        out := out + [tnote];
      }
      sent := sent + multiset(out);
      BackIsNext(futureStack, end);
    }

    function PlayPosition(): int
      requires 0 <= current < |generators|
      reads `generators, `current, generators
    {
      generators[current].xtick
    }

    ghost function Now(): Playing
      reads `generators, `current, `generatorStart, generators
    {
      Playing(Values(generators), current, generatorStart)
    }

    method Resume(position: int)
      requires FeedOk() && 0 <= current
      modifies generators
      ensures FeedOk() && Values(generators) == Rewound(old(Values(generators)), current, position)
      ensures PlayPosition() == Min(position, generators[current].last)
    {
      generators[current].JumpTo(position);
    }

    /** The loop over bars. */
    method FindBar(barTick: int, barTicks: int, playPoint: int)
      requires 0 < barTicks
      modifies `generatorStart
      ensures generatorStart == NextBar(barTick, barTicks, playPoint)
    {
      generatorStart := barTick;
      while generatorStart < playPoint
        invariant NextBar(generatorStart, barTicks, playPoint) == NextBar(barTick, barTicks, playPoint)
      {
        generatorStart := generatorStart + barTicks;
      }
    }

    /** Generator succession, after the current one is done: the next clip starts at a bar, from its beginning. */
    method Succeed(barTick: int, barTicks: int)
      requires FeedOk() && 0 <= current && 0 < barTicks && generators[current].Done()
      modifies `current, `generatorStart, generators
      ensures FeedOk() && Now() == Succession(old(Now()), scout, barTick, barTicks)
      ensures NextStarts(old(Now()), Now(), scout, barTick, barTicks)
    {
      hide NextBar, GeneratorsOk, NextStarts;
      LastsOk();
      NextClipStarts(Now(), scout, barTick, barTicks);
      var playPoint := generatorStart + PlayPosition();
      current := scout[current];
      if current >= 0 {
        FindBar(barTick, barTicks, playPoint);
        Resume(0);
        if generators[current].Done() {
          current := -1;
        }
      }
      if current == -1 {
        generatorStart := -1;
      }
    }

    lemma LastsOk()
      requires FeedOk()
      ensures forall i :: 0 <= i < |Now().gens| ==> 0 <= Now().gens[i].last
    {
    }

    /** Outputs an event that is due, stacks one that is not. */
    method HandOver(event: Timed, end: int) returns (due: bool)
      requires Books() && AllFrom(futureStack, end)
      requires event.event.kind == NoteOn ==> event.tick < end
      modifies `futureStack, `sent, `handed
      ensures Books() && AllFrom(futureStack, end) && due == (event.tick < end)
      ensures handed == old(handed) + multiset{event}
      ensures sent == old(sent) + if due then multiset{event} else multiset{}
    {
      hide Lawful, StackOk, AllFrom;
      due := event.tick < end;
      handed := handed + multiset{event};
      if due {
        sent := sent + multiset{event};
      } else {
        BackwardLawful();
        StackSorted(futureStack);
        var pos, exact := BinaryInsertionPos(CompareBackward, futureStack, event);
        PlaceFound(futureStack, event, pos, exact);
        InsertedOk(futureStack, event, pos);
        futureStack := futureStack[..pos] + [event] + futureStack[pos..];
      }
    }

    /** The handler of generated events: clip ticks become engine ticks. */
    method Receive(events: seq<Timed>, end: int) returns (out: seq<Timed>)
      requires Books() && AllFrom(futureStack, end)
      requires OnsDue(events, generatorStart, end)
      modifies `futureStack, `sent, `handed
      ensures Books() && AllFrom(futureStack, end)
      ensures sent == old(sent) + multiset(out) && Due(out, end)
      ensures handed == old(handed) + multiset(Shifted(events, generatorStart))
    {
      hide StackOk, AllFrom, Shifted, Due, Books, OnsDue;
      out := [];
      NothingDue(end);
      NoneShifted(generatorStart);
      for i := 0 to |events|
        modifies `futureStack, `sent, `handed
        invariant Books() && AllFrom(futureStack, end) && Due(out, end)
        invariant sent == old(sent) + multiset(out)
        invariant handed == old(handed) + multiset(Shifted(events[..i], generatorStart))
      {
        var event := Timed(generatorStart + events[i].tick, events[i].event);
        OnDue(events, generatorStart, end, i);
        ShiftedNext(events, i, generatorStart);
        OneMore(old(handed), Shifted(events[..i], generatorStart), event);
        OneMore(old(sent), out, event);
        var due := HandOver(event, end);
        if due {
          OneMoreDue(out, event, end);
          out := out + [event];
        }
      }
      assert events[..|events|] == events;
    }

    /** Let the current generator play up to the end of the block. */
    method Advance(end: int) returns (events: seq<Timed>)
      requires FeedOk() && 0 <= current && generatorStart + PlayPosition() < end
      modifies generators
      ensures FeedOk() && Now() == Advanced(old(Now()), end)
      ensures Shifted(events, generatorStart) == TurnEvents(old(Now()), end)
      ensures OnsDue(events, generatorStart, end)
    {
      hide OnlyMet, AllMet, Sounds, Played, Pos, Visible, StrictlySorted, Shifted;
      var g := generators[current];
      ghost var x := g.xtick;
      var advanced;
      advanced, events := g.Generate(end - generatorStart);
      PlayedOns(g.Looping(), g.events, Max(x, 0), Max(g.xtick, 0));
    }

    /** Generate and output or stack what the current generator plays until the end of the block. */
    method PlayOn(end: int) returns (out: seq<Timed>)
      requires Valid() && 0 <= current && generatorStart + PlayPosition() < end && AllFrom(futureStack, end)
      modifies `futureStack, `sent, `handed, generators
      ensures Valid() && AllFrom(futureStack, end)
      ensures sent == old(sent) + multiset(out) && Due(out, end)
      ensures handed == old(handed) + multiset(TurnEvents(old(Now()), end))
      ensures Now() == Advanced(old(Now()), end)
    {
      hide StackOk, AllFrom, FeedOk, Books, Now, Due, Advanced, TurnEvents, Shifted;
      var events := Advance(end);
      out := Receive(events, end);
    }

    /** Handle succession and publish the position. */
    method Follow(barTick: int, barTicks: int)
      requires FeedOk() && 0 <= current && 0 < barTicks
      modifies `current, `tick, `generatorStart, generators
      ensures FeedOk() && Now() == Succession(old(Now()), scout, barTick, barTicks)
      ensures tick == if current >= 0 then generators[current].itick else -M52MAX
    {
      hide GeneratorsOk, NextBar, Rewound;
      if generators[current].Done() {
        Succeed(barTick, barTicks);
      }
      if current >= 0 {
        tick := generators[current].itick;
      } else {
        tick := -M52MAX;
      }
    }

    /** One turn of the succession loop. */
    method PlayTurn(end: int, barTick: int, barTicks: int) returns (out: seq<Timed>)
      requires Valid() && 0 <= current && generatorStart + PlayPosition() < end && 0 < barTicks
      requires AllFrom(futureStack, end)
      modifies this, generators
      ensures Valid() && AllFrom(futureStack, end) && SameFeed(old(generators), old(scout), old(hasFeed))
      ensures mustFlush == old(mustFlush)
      ensures sent == old(sent) + multiset(out) && Due(out, end)
      ensures handed == old(handed) + multiset(TurnEvents(old(Now()), end))
      ensures Now() == Turn(old(Now()), scout, end, barTick, barTicks)
    {
      hide StackOk, AllFrom, FeedOk, Books, Now, Due, Advanced, TurnEvents, Succession;
      out := PlayOn(end);
      Follow(barTick, barTicks);
    }

    ghost predicate SameFeed(gs: seq<Generator>, order: seq<int>, some: bool)
      reads `generators, `scout, `hasFeed
    {
      generators == gs && scout == order && hasFeed == some
    }

    /** One block of playback: what is handed over is what the reference plays. No event gets lost or doubled; what
        is output is due before the end of the block, except for a flush, and what waits afterwards is a note-off
        due at the end of the block or later. */
    method Render(begin: int, end: int, bpm: int, barTick: int, barTicks: int) returns (out: seq<Timed>)
      requires Valid() && begin <= end && 0 < barTicks
      modifies this, generators
      ensures Valid() && AllFrom(futureStack, end) && SameFeed(old(generators), old(scout), old(hasFeed)) && !mustFlush
      ensures sent == old(sent) + multiset(out)
      ensures if old(mustFlush) || bpm <= 0 then multiset(old(futureStack)) <= multiset(out) else Due(out, end)
      ensures var (after, events) := if bpm > 0 && old(current) >= 0 && old(generatorStart) >= 0
                                     then Block(old(Now()), scout, end, barTick, barTicks) else (old(Now()), []);
              Now() == after && handed == old(handed) + multiset(events)
    {
      hide StackOk, AllFrom, FeedOk, Books, Due, Block;
      out := OutputWaiting(end, bpm);
      if hasFeed && |generators| > 0 && bpm > 0 && current >= 0 && generatorStart >= 0 {
        var played := PlayBlock(end, barTick, barTicks);
        if Due(out, end) { BothDue(out, played, end); }
        out := out + played;
      }
    }

    /** The first half of render(): a flush if one is called for, then the events that are due. */
    method OutputWaiting(end: int, bpm: int) returns (out: seq<Timed>)
      requires Books()
      modifies `futureStack, `sent, `mustFlush
      ensures Books() && AllFrom(futureStack, end) && !mustFlush
      ensures sent == old(sent) + multiset(out)
      ensures multiset(old(futureStack)) == multiset(out) + multiset(futureStack)
      ensures if old(mustFlush) || bpm <= 0 then futureStack == [] else Due(out, end)
    {
      hide StackOk, AllFrom, Books, Due;
      out := [];
      NothingDue(end);
      if mustFlush || bpm <= 0 {
        mustFlush := false;
        out := Flush();
      }
      var due := PopDue(end);
      if Due(out, end) { BothDue(out, due, end); }
      out := out + due;
    }

    /** The succession loop. */
    method PlayBlock(end: int, barTick: int, barTicks: int) returns (out: seq<Timed>)
      requires Valid() && 0 < barTicks && AllFrom(futureStack, end)
      modifies this, generators
      ensures Valid() && AllFrom(futureStack, end) && SameFeed(old(generators), old(scout), old(hasFeed))
              && mustFlush == old(mustFlush)
      ensures sent == old(sent) + multiset(out) && Due(out, end)
      ensures Now() == Block(old(Now()), scout, end, barTick, barTicks).0
      ensures handed == old(handed) + multiset(Block(old(Now()), scout, end, barTick, barTicks).1)
    {
      hide StackOk, AllFrom, FeedOk, Books, Due, Block, Turn, TurnEvents, StillPlaying;
      out := [];
      ghost var all := Block(Now(), scout, end, barTick, barTicks);
      ghost var done: seq<Timed> := [];
      NothingDue(end);
      BlockStarts(Now(), scout, end, barTick, barTicks);
      while current >= 0 && generatorStart + PlayPosition() < end
        invariant Valid() && AllFrom(futureStack, end) && SameFeed(old(generators), old(scout), old(hasFeed))
        invariant mustFlush == old(mustFlush)
        invariant sent == old(sent) + multiset(out) && Due(out, end)
        invariant handed == old(handed) + multiset(done)
        invariant Scouts(scout, |Now().gens|) && StillPlaying(all, Now(), scout, end, barTick, barTicks, done)
        decreases Now().Left(end), if Now().Ended() then 1 else 0
      {
        BlockGoesOn(all, Now(), scout, end, barTick, barTicks, done);
        TurnNearer(Now(), scout, end, barTick, barTicks);
        done := done + TurnEvents(Now(), end);
        var played := PlayTurn(end, barTick, barTicks);
        BothDue(out, played, end);
        out := out + played;
      }
      BlockEnds(all, Now(), scout, end, barTick, barTicks, done);
    }

    /** Start playing the first clip at the current bar, unless a clip is playing. */
    method Start(barTick: int)
      requires Valid()
      modifies `current, `generatorStart, generators
      ensures Valid() && Now() == if hasFeed && |generators| > 0 && old(current) < 0
                                  then Playing(Rewound(old(Values(generators)), 0, 0), 0, barTick) else old(Now())
    {
      if hasFeed && |generators| > 0 {
        if current < 0 {
          current := 0;
          generatorStart := barTick;
          Resume(0);
        }
      }
    }

    /** Stop: all waiting note-offs are output with the next block. */
    method Stop(restart: bool)
      requires Valid()
      modifies `tick, `mustFlush, `current, `generatorStart
      ensures Valid() && mustFlush && tick == -M52MAX
      ensures Now() == if restart then old(Now()).(current := -1, start := -1) else old(Now())
    {
      tick := -M52MAX;
      mustFlush := true;
      if restart {
        current := -1;
        generatorStart := -1;
      }
    }

    /** Swap in another feed and keep the play position of the current clip, if the new feed has it. */
    method UpdateFeed(some: bool, gs: seq<Generator>, order: seq<int>)
      requires Valid() && AllPlayable(gs) && Distinct(gs) && |order| == |gs| && (!some ==> gs == [])
      requires forall i :: 0 <= i < |order| ==> -1 <= order[i] < |gs|
      modifies this, gs
      ensures Valid() && SameFeed(gs, order, some)
      ensures futureStack == old(futureStack) && sent == old(sent) && handed == old(handed)
      ensures var kept := 0 <= old(current) < |gs|;
              && Now() == (if kept then Playing(Rewound(old(Values(gs)), old(current), old(PlayPosition())),
                                                old(current), old(generatorStart))
                           else Playing(old(Values(gs)), -1, old(generatorStart)))
              && mustFlush == (old(mustFlush) || (old(current) >= 0 && !kept))
    {
      hide Books;
      var lastPlayPosition := if current >= 0 then PlayPosition() else 0;
      hasFeed, generators, scout := some, gs, order;
      if current >= 0 {
        if hasFeed && current < |generators| {
          Resume(lastPlayPosition);
        } else {
          mustFlush := mustFlush || current != -1;
          current := -1;
        }
      }
    }
  }

  /** No note-on is due at tick `end` or later. */
  ghost predicate OnsDue(events: seq<Timed>, start: int, end: int) {
    forall e :: e in events && e.event.kind == NoteOn ==> start + e.tick < end
  }

  lemma OnDue(events: seq<Timed>, start: int, end: int, i: nat)
    requires OnsDue(events, start, end) && i < |events|
    ensures events[i].event.kind == NoteOn ==> start + events[i].tick < end
  {
    assert events[i] in events;
  }

  /** Events due before a tick. */
  predicate Due(out: seq<Timed>, end: int) {
    forall e :: e in out ==> e.tick < end
  }

  ghost function Values(gs: seq<Generator>): seq<Gen>
    reads gs
  {
    seq(|gs|, i requires 0 <= i < |gs| reads gs => gs[i].Value())
  }

  ghost predicate AllPlayable(gs: seq<Generator>)
    reads gs
  {
    forall i :: 0 <= i < |gs| ==> gs[i].Playable()
  }

  function Shifted(events: seq<Timed>, start: int): seq<Timed> {
    seq(|events|, i requires 0 <= i < |events| => Timed(start + events[i].tick, events[i].event))
  }

  lemma NoneShifted(start: int)
    ensures Shifted([], start) == []
  {
  }

  lemma EmptyStack()
    ensures StackOk([])
  {
  }

  lemma FlushStep(stack: seq<Timed>, i: nat)
    requires StackOk(stack) && i < |stack|
    ensures stack[i].event.kind == NoteOff
    ensures multiset(stack[..i + 1]) == multiset(stack[..i]) + multiset{stack[i]}
  {
    assert stack[i] in stack;
    assert stack[..i + 1] == stack[..i] + [stack[i]];
  }

  lemma PoppedOk(stack: seq<Timed>)
    requires StackOk(stack) && stack != []
    ensures StackOk(stack[..|stack| - 1])
    ensures multiset(stack) == multiset(stack[..|stack| - 1]) + multiset{Last(stack)}
  {
    assert stack == stack[..|stack| - 1] + [Last(stack)];
  }

  lemma BackIsNext(stack: seq<Timed>, tick: int)
    requires StackOk(stack) && (stack != [] ==> tick <= Last(stack).tick)
    ensures AllFrom(stack, tick)
  {
    forall e | e in stack ensures tick <= e.tick {
      var i :| 0 <= i < |stack| && stack[i] == e;
      assert i < |stack| - 1 ==> Last(stack).tick <= e.tick;
    }
  }

  lemma ShiftedNext(events: seq<Timed>, i: nat, start: int)
    requires i < |events|
    ensures Shifted(events[..i + 1], start)
            == Shifted(events[..i], start) + [Timed(start + events[i].tick, events[i].event)]
  {
  }

  lemma PlaceFound(stack: seq<Timed>, e: Timed, pos: nat, exact: bool)
    requires StackOk(stack)
    requires if exact then pos < |stack| && CompareBackward(e, stack[pos]) == 0
             else InsertionPos(CompareBackward, stack, e, pos)
    ensures pos <= |stack|
    ensures forall k :: 0 <= k < pos ==> e.tick <= stack[k].tick
    ensures forall k :: pos <= k < |stack| ==> stack[k].tick <= e.tick
  {
  }
}
