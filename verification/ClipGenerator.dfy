/** ClipImpl::Generator: loop-unrolling playback of a clip's notes. */
module ClipGenerator {
  import opened Basics
  import opened SortedLists
  import opened ClipNotes

  const M52MAX := 9007199254740992

  datatype Loop = Loop(offset: int, start: int, end: int)

  // ----- reference: stepping tick by tick

  function Next(l: Loop, p: int): int { if p + 1 == l.end then l.start else p + 1 }

  /** The looped clip position at external tick x. */
  function Pos(l: Loop, x: nat): int {
    if x == 0 then l.offset else Next(l, Pos(l, x - 1))
  }

  /** A negative external tick is a delay before playback starts. */
  function Position(l: Loop, x: int): int { if x < 0 then x else Pos(l, x) }

  function Here(n: Note, p: int): seq<Note> { if n.tick == p then [n] else [] }

  function NotesAt(notes: seq<Note>, p: int): seq<Note> {
    if notes == [] then [] else Here(notes[0], p) + NotesAt(notes[1..], p)
  }

  /** Note-on and note-off of each note, shifted to external ticks. */
  function Emit(notes: seq<Note>, shift: int): seq<Timed> {
    if notes == [] then []
    else [Timed(notes[0].tick + shift, On(notes[0])), Timed(notes[0].tick + shift + notes[0].duration, Off(notes[0]))]
         + Emit(notes[1..], shift)
  }

  /** The events of external ticks lo to hi - 1: for each tick in order, all notes at the looped position. */
  function Played(l: Loop, notes: seq<Note>, lo: nat, hi: nat): seq<Timed> {
    if hi <= lo then []
    else Played(l, notes, lo, hi - 1) + Emit(NotesAt(notes, Pos(l, hi - 1)), hi - 1 - Pos(l, hi - 1))
  }

  // ----- what the events say

  /** The event is of this kind and carries the note's own channel, key, velocity, tuning and id. */
  predicate Voices(e: MidiEvent, n: Note, kind: Kind) {
    && e.kind == kind && e.channel == n.channel && e.key == n.key
    && e.velocity == n.velocity && e.tuning == n.tuning && e.id == n.id
  }

  /** Note n sounds at tick x: it is switched on, unless it has no velocity, and off after its duration. */
  predicate Sounds(n: Note, x: int, on: Timed, off: Timed) {
    && on.tick == x && Voices(on.event, n, if n.velocity > 0.0 then NoteOn else NoteOff)
    && off.tick == x + n.duration && Voices(off.event, n, NoteOff)
  }

  /** The m-th pair of events is note n sounding at tick x. */
  predicate SoundsIn(out: seq<Timed>, m: nat, n: Note, x: int) {
    2 * m + 1 < |out| && Sounds(n, x, out[2 * m], out[2 * m + 1])
  }

  lemma {:induction false} EmitSounds(notes: seq<Note>, shift: int)
    ensures |Emit(notes, shift)| == 2 * |notes|
    ensures forall m :: 0 <= m < |notes| ==> SoundsIn(Emit(notes, shift), m, notes[m], notes[m].tick + shift)
  {
    if notes != [] {
      EmitSounds(notes[1..], shift);
      var rest, out := Emit(notes[1..], shift), Emit(notes, shift);
      forall m | 0 <= m < |notes| ensures SoundsIn(out, m, notes[m], notes[m].tick + shift) {
        if m > 0 {
          assert SoundsIn(rest, m - 1, notes[1..][m - 1], notes[1..][m - 1].tick + shift);
          assert out[2 * m] == rest[2 * (m - 1)] && out[2 * m + 1] == rest[2 * (m - 1) + 1];
        }
      }
    }
  }

  lemma {:induction false} NotesAtMembers(notes: seq<Note>, p: int)
    ensures forall n :: n in NotesAt(notes, p) <==> n in notes && n.tick == p
  {
    if notes != [] { NotesAtMembers(notes[1..], p); }
  }

  /** A note at the looped position of some tick x. */
  predicate Meets(l: Loop, notes: seq<Note>, lo: nat, hi: nat, n: Note, x: nat) {
    lo <= x < hi && n in notes && n.tick == Pos(l, x)
  }

  /** All events are those of notes that playback meets. */
  ghost predicate OnlyMet(l: Loop, notes: seq<Note>, lo: nat, hi: nat, out: seq<Timed>) {
    && |out| % 2 == 0
    && forall m: nat :: m < |out| / 2 ==> Met(l, notes, lo, hi, out, m)
  }

  /** The m-th pair of events is a note that playback meets. */
  ghost predicate Met(l: Loop, notes: seq<Note>, lo: nat, hi: nat, out: seq<Timed>, m: nat) {
    exists n, x: nat :: Meets(l, notes, lo, hi, n, x) && SoundsIn(out, m, n, x)
  }

  ghost predicate Heard(out: seq<Timed>, n: Note, x: nat) {
    exists m: nat :: SoundsIn(out, m, n, x)
  }

  /** Every note that playback meets sounds. */
  ghost predicate AllMet(l: Loop, notes: seq<Note>, lo: nat, hi: nat, out: seq<Timed>) {
    forall n, x: nat :: Meets(l, notes, lo, hi, n, x) ==> Heard(out, n, x)
  }

  lemma EmittedAt(l: Loop, notes: seq<Note>, x: nat)
    ensures var out := Emit(NotesAt(notes, Pos(l, x)), x - Pos(l, x));
            OnlyMet(l, notes, x, x + 1, out) && AllMet(l, notes, x, x + 1, out)
  {
    hide Pos, Sounds, NotesAt, Emit;
    var p := Pos(l, x);
    var ns := NotesAt(notes, p);
    var out, end := Emit(ns, x - p), x + 1;
    EmitSounds(ns, x - p);
    NotesAtMembers(notes, p);
    forall m: nat | m < |out| / 2 ensures Met(l, notes, x, end, out, m) {
      assert ns[m] in ns;
      assert Meets(l, notes, x, end, ns[m], x) && SoundsIn(out, m, ns[m], x);
    }
    forall n, y: nat | Meets(l, notes, x, end, n, y) ensures Heard(out, n, y) {
      assert n in ns;
      var m :| 0 <= m < |ns| && ns[m] == n;
      assert SoundsIn(out, m, n, y);
    }
  }

  lemma SoundsLater(a: seq<Timed>, b: seq<Timed>, m: nat, n: Note, x: int)
    requires |a| % 2 == 0 && SoundsIn(b, m, n, x)
    ensures SoundsIn(a + b, |a| / 2 + m, n, x)
  {
    assert (a + b)[2 * (|a| / 2 + m)] == b[2 * m];
  }

  lemma JoinMet(l: Loop, notes: seq<Note>, lo: nat, mid: nat, hi: nat, a: seq<Timed>, b: seq<Timed>)
    requires lo <= mid <= hi && OnlyMet(l, notes, lo, mid, a) && AllMet(l, notes, lo, mid, a)
    requires OnlyMet(l, notes, mid, hi, b) && AllMet(l, notes, mid, hi, b)
    ensures OnlyMet(l, notes, lo, hi, a + b) && AllMet(l, notes, lo, hi, a + b)
  {
    hide Pos, Sounds;
    forall m: nat | m < |a + b| / 2 ensures Met(l, notes, lo, hi, a + b, m) {
      if m < |a| / 2 {
        assert Met(l, notes, lo, mid, a, m);
        var n, x: nat :| Meets(l, notes, lo, mid, n, x) && SoundsIn(a, m, n, x);
        assert Meets(l, notes, lo, hi, n, x) && SoundsIn(a + b, m, n, x);
      } else {
        assert Met(l, notes, mid, hi, b, m - |a| / 2);
        var n, x: nat :| Meets(l, notes, mid, hi, n, x) && SoundsIn(b, m - |a| / 2, n, x);
        SoundsLater(a, b, m - |a| / 2, n, x);
        assert Meets(l, notes, lo, hi, n, x) && SoundsIn(a + b, m, n, x);
      }
    }
    forall n, x: nat | Meets(l, notes, lo, hi, n, x) ensures Heard(a + b, n, x) {
      if x < mid {
        assert Meets(l, notes, lo, mid, n, x) && Heard(a, n, x);
        var m: nat :| SoundsIn(a, m, n, x);
        assert SoundsIn(a + b, m, n, x);
      } else {
        assert Meets(l, notes, mid, hi, n, x) && Heard(b, n, x);
        var m: nat :| SoundsIn(b, m, n, x);
        SoundsLater(a, b, m, n, x);
      }
    }
  }

  /** What is played are the notes at the looped positions, each with its own voice, and all of them. */
  lemma {:induction false} PlayedSounds(l: Loop, notes: seq<Note>, lo: nat, hi: nat)
    ensures var out := Played(l, notes, lo, hi); OnlyMet(l, notes, lo, hi, out) && AllMet(l, notes, lo, hi, out)
  {
    hide Pos, Sounds, NotesAt, Emit, OnlyMet, AllMet;
    if hi <= lo {
      NothingMet(l, notes, lo, hi);
    } else {
      PlayedSounds(l, notes, lo, hi - 1);
      EmittedAt(l, notes, hi - 1);
      JoinMet(l, notes, lo, hi - 1, hi, Played(l, notes, lo, hi - 1),
              Emit(NotesAt(notes, Pos(l, hi - 1)), hi - 1 - Pos(l, hi - 1)));
    }
  }

  lemma NothingMet(l: Loop, notes: seq<Note>, lo: nat, hi: nat)
    requires hi <= lo
    ensures OnlyMet(l, notes, lo, hi, []) && AllMet(l, notes, lo, hi, [])
  {
  }

  /** Splitting a stretch of playback changes nothing. */
  lemma {:induction false} PlayedSplits(l: Loop, notes: seq<Note>, lo: nat, mid: nat, hi: nat)
    requires lo <= mid <= hi
    ensures Played(l, notes, lo, mid) + Played(l, notes, mid, hi) == Played(l, notes, lo, hi)
  {
    if mid < hi {
      PlayedSplits(l, notes, lo, mid, hi - 1);
    }
  }

  // ----- positions in closed form

  lemma {:induction false} PosRuns(l: Loop, x: nat, d: nat)
    requires Pos(l, x) + d < l.end || l.end <= Pos(l, x)
    ensures Pos(l, x + d) == Pos(l, x) + d
  {
    if d > 0 {
      PosRuns(l, x, d - 1);
    }
  }

  lemma PosWraps(l: Loop, x: nat, d: nat)
    requires Pos(l, x) + d == l.end && 0 < d
    ensures Pos(l, x + d) == l.start
  {
    PosRuns(l, x, d - 1);
  }

  lemma {:induction false} PosLoops(l: Loop, x: nat, d: nat)
    requires l.start < l.end && Pos(l, x) == l.start
    ensures Pos(l, x + d) == l.start + Mod(d, l.end - l.start)
    decreases d
  {
    hide Mod, Pos;
    var n := l.end - l.start;
    if d < n {
      PosRuns(l, x, d);
      ModSmall(d, n);
    } else {
      PosWraps(l, x, n);
      PosLoops(l, x + n, d - n);
      ModStep(d, n);
    }
  }

  function Mod(d: nat, n: int): nat
    requires 0 < n
  {
    d % n
  }

  lemma ModSmall(d: nat, n: nat)
    requires d < n
    ensures Mod(d, n) == d
  {
  }

  lemma ModStep(d: nat, n: nat)
    requires 0 < n <= d
    ensures Mod(d - n, n) == Mod(d, n)
  {
    var q := d / n;
    assert d == n * q + d % n;
    assert d - n == n * (q - 1) + d % n;
    ModUnique(d - n, n, q - 1, d % n);
  }

  // ----- one chunk of playback

  /** The first k notes are the ones before tick t. */
  ghost predicate Cut(notes: seq<Note>, t: int, k: nat) {
    && k <= |notes|
    && (forall i :: 0 <= i < k ==> notes[i].tick < t)
    && (forall i :: k <= i < |notes| ==> t <= notes[i].tick)
  }

  ghost predicate ByTick(notes: seq<Note>) {
    forall i, j :: 0 <= i < j < |notes| ==> notes[i].tick <= notes[j].tick
  }

  lemma {:induction false} CutExists(notes: seq<Note>, t: int) returns (k: nat)
    requires ByTick(notes)
    ensures Cut(notes, t, k)
  {
    if notes == [] || t <= notes[0].tick {
      k := 0;
    } else {
      k := CutExists(notes[1..], t);
      k := k + 1;
    }
  }

  lemma {:induction false} NotesAtConcat(a: seq<Note>, b: seq<Note>, p: int)
    ensures NotesAt(a + b, p) == NotesAt(a, p) + NotesAt(b, p)
  {
    hide Here;
    if a == [] {
      assert a + b == b;
    } else {
      NotesAtConcat(a[1..], b, p);
      assert (a + b)[1..] == a[1..] + b;
    }
  }

  lemma {:induction false} NotesAtNone(a: seq<Note>, p: int)
    requires forall n :: n in a ==> n.tick != p
    ensures NotesAt(a, p) == []
  {
    if a != [] {
      NotesAtNone(a[1..], p);
    }
  }

  lemma {:induction false} NotesAtAll(a: seq<Note>, p: int)
    requires forall n :: n in a ==> n.tick == p
    ensures NotesAt(a, p) == a
  {
    if a != [] {
      NotesAtAll(a[1..], p);
    }
  }

  lemma NotesAtParts(notes: seq<Note>, p: int, i: nat, j: nat)
    requires i <= j <= |notes|
    ensures NotesAt(notes, p) == NotesAt(notes[..i], p) + NotesAt(notes[i..j], p) + NotesAt(notes[j..], p)
  {
    hide NotesAt;
    NotesAtConcat(notes[..i], notes[i..j], p);
    NotesAtConcat(notes[..j], notes[j..], p);
    assert notes == notes[..j] + notes[j..] && notes[..j] == notes[..i] + notes[i..j];
  }

  lemma CutOrder(notes: seq<Note>, t: int, i: nat, u: int, j: nat)
    requires Cut(notes, t, i) && Cut(notes, u, j) && t <= u
    ensures i <= j
  {
    assert i == 0 || notes[i - 1].tick < t;
  }

  /** In a list ordered by tick the notes at p are a contiguous range. */
  lemma NotesAtRange(notes: seq<Note>, p: int, i: nat, j: nat)
    requires Cut(notes, p, i) && Cut(notes, p + 1, j)
    ensures i <= j && NotesAt(notes, p) == notes[i..j]
  {
    CutOrder(notes, p, i, p + 1, j);
    NotesAtNone(notes[..i], p);
    NotesAtAll(notes[i..j], p);
    NotesAtNone(notes[j..], p);
    NotesAtParts(notes, p, i, j);
  }

  lemma {:induction false} EmitConcat(a: seq<Note>, b: seq<Note>, shift: int)
    ensures Emit(a + b, shift) == Emit(a, shift) + Emit(b, shift)
  {
    if a == [] {
      assert a + b == b;
    } else {
      EmitConcat(a[1..], b, shift);
      assert (a + b)[1..] == a[1..] + b;
    }
  }

  lemma EmitOne(n: Note, shift: int)
    ensures Emit([n], shift) == [Timed(n.tick + shift, On(n)), Timed(n.tick + shift + n.duration, Off(n))]
  {
    assert [n][1..] == [];
  }

  lemma EmitNothing(notes: seq<Note>, i: nat, shift: int)
    requires i <= |notes|
    ensures Emit(notes[i..i], shift) == []
  {
  }

  lemma CutInside(notes: seq<Note>, t: int, k: nat)
    requires Cut(notes, t, k)
    ensures k <= |notes|
  {
  }

  /** The loop does not wrap within external ticks x to x + d - 1. */
  ghost predicate StepsThrough(l: Loop, x: nat, a: int, d: nat) {
    forall y :: x <= y < x + d ==> Pos(l, y) == a + y - x
  }

  /** The notes between two ticks, played in one go, are what stepping through the chunk plays. */
  lemma {:induction false} ChunkPlayed(l: Loop, notes: seq<Note>, x: nat, a: int, d: nat, i: nat, j: nat)
    requires ByTick(notes) && Cut(notes, a, i) && Cut(notes, a + d, j)
    requires StepsThrough(l, x, a, d)
    ensures i <= j <= |notes| && Emit(notes[i..j], x - a) == Played(l, notes, x, x + d)
    decreases d
  {
    hide Pos, NotesAt, Cut, Emit;
    if d == 0 {
      CutOrder(notes, a, i, a, j);
      CutOrder(notes, a, j, a, i);
      CutInside(notes, a, i);
      EmitNothing(notes, i, x - a);
    } else {
      var m := CutExists(notes, a + d - 1);
      ChunkPlayed(l, notes, x, a, d - 1, i, m);
      assert Pos(l, x + d - 1) == a + d - 1;
      NotesAtRange(notes, a + d - 1, m, j);
      CutInside(notes, a + d, j);
      EmitConcat(notes[i..m], notes[m..j], x - a);
      assert notes[i..j] == notes[i..m] + notes[m..j];
    }
  }

  lemma EmitNext(notes: seq<Note>, i: nat, k: nat, shift: int)
    requires i <= k < |notes|
    ensures Emit(notes[i..k + 1], shift) == Emit(notes[i..k], shift) + Emit([notes[k]], shift)
  {
    EmitConcat(notes[i..k], [notes[k]], shift);
    assert notes[i..k + 1] == notes[i..k] + [notes[k]];
  }

  lemma NothingPlayed(l: Loop, notes: seq<Note>, x: nat)
    ensures Played(l, notes, x, x) == []
  {
  }

  lemma PosStart(l: Loop)
    ensures Pos(l, 0) == l.offset
  {
  }

  /** A chunk that ends at the loop end at the latest moves straight on and wraps at its end. */
  lemma ChunkMoves(l: Loop, x: nat, a: int, d: nat)
    requires Pos(l, x) == a && 0 < d && (a < l.end ==> a + d <= l.end)
    ensures StepsThrough(l, x, a, d)
    ensures Pos(l, x + d) == if a + d == l.end then l.start else a + d
  {
    hide Pos;
    forall y | x <= y < x + d ensures Pos(l, y) == a + y - x {
      PosRuns(l, x, y - x);
    }
    if a + d == l.end {
      PosWraps(l, x, d);
    } else {
      PosRuns(l, x, d);
    }
  }

  // ----- the generator

  function Index(tick: int): Note { Note(0, 0, 0, false, tick, 0, 0.0, 0.0) }

  /** Notes the lookup by tick can see: not ordered before the search key of their own tick. Notes with a
      positive id, channel 0 or above and key 0 or above are. */
  ghost predicate Visible(notes: seq<Note>) {
    forall n :: n in notes ==> CompareTicks(n, Index(n.tick)) >= 0
  }

  lemma MidiNotesVisible(notes: seq<Note>)
    requires forall n :: n in notes ==> 0 < n.id && 0 <= n.channel && 0 <= n.key
    ensures Visible(notes)
  {
  }

  lemma LookupCuts(notes: seq<Note>, a: int, pos: nat)
    requires Visible(notes) && pos <= |notes|
    requires forall k :: 0 <= k < pos ==> CompareTicks(notes[k], Index(a)) < 0
    requires forall k :: pos <= k < |notes| ==> CompareTicks(notes[k], Index(a)) >= 0
    ensures Cut(notes, a, pos)
  {
    forall k | 0 <= k < pos ensures notes[k].tick < a {
      assert notes[k] in notes;
    }
  }

  lemma StrictByTick(notes: seq<Note>)
    requires StrictlySorted(CompareTicks, notes)
    ensures ByTick(notes)
  {
    forall i, j | 0 <= i < j < |notes| ensures notes[i].tick <= notes[j].tick {
      assert CompareTicks(notes[i], notes[j]) < 0;
    }
  }

  /** A generator as a value; its internal tick follows from the external one. */
  datatype Gen = Gen(loop: Loop, notes: seq<Note>, muted: bool, last: int, x: int) {
    predicate Ended() { x >= last }

    /** The state after generate(), and the events it emits. */
    function Advanced(target: int): Gen { this.(x := Reached(x, target, last)) }

    function Plays(target: int): seq<Timed> {
      if muted then [] else Played(loop, notes, Max(x, 0), Max(Advanced(target).x, 0))
    }
  }

  class Generator {
    var last: int
    var xtick: int
    var itick: int
    var startOffset: int
    var loopStart: int
    var loopEnd: int
    var events: seq<Note>
    var muted: bool

    ghost function Looping(): Loop
      reads this
    {
      Loop(startOffset, loopStart, loopEnd)
    }

    ghost predicate Valid()
      reads this
    {
      StrictlySorted(CompareTicks, events) && Visible(events) && 0 <= last
    }

    /** The internal tick is the looped position of the external tick. */
    ghost predicate InPlace()
      reads this
    {
      itick == Position(Looping(), xtick)
    }

    /** A generator that was set up, in the place its external tick asks for. */
    ghost predicate Playable()
      reads this
    {
      Valid() && InPlace() && startOffset < loopEnd && loopStart < loopEnd
    }

    ghost function Value(): Gen
      reads this
    {
      Gen(Looping(), events, muted, last, xtick)
    }

    /** Playback is done. */
    predicate Done()
      reads this
    {
      xtick >= last
    }

    constructor ()
      ensures Valid() && InPlace() && xtick == 0 && events == []
    {
      last, xtick, itick := 9223372036854775807, 0, 0;
      startOffset, loopStart, loopEnd := 0, 0, 9223372036854775807;
      events, muted := [], false;
    }

    method Setup(notes: seq<Note>, barTicks: int)
      requires StrictlySorted(CompareTicks, notes) && Visible(notes) && 0 < barTicks
      modifies this
      ensures Valid() && events == notes && xtick == old(xtick) && itick == old(itick)
      ensures Looping() == Loop(0, 0, 2 * barTicks) && last == M52MAX && !muted
    {
      events := notes;
      muted := false;
      startOffset := 0;
      loopStart := 0;
      loopEnd := barTicks * 2;
      last := M52MAX;
    }

    /** Seek: the same state as stepping from the start, found with a modulo. A start offset at or beyond the loop end
        would be forgotten, but Setup leaves none. */
    method JumpTo(target: int)
      requires 0 <= last && (startOffset < loopEnd ==> loopStart < loopEnd)
      modifies `xtick, `itick
      ensures xtick == Min(target, last)
      ensures InPlace() <==> startOffset < loopEnd || startOffset == 0 || target <= 0 || last == 0
    {
      if target < 0 {
        xtick := target;
        itick := xtick;
        return;
      }
      xtick := Min(target, last);
      itick := startOffset;
      if !(xtick > 0) { return; }
      if itick >= loopEnd {
        PosRuns(Looping(), 0, xtick);
        itick := xtick;
        return;
      }
      var delta := xtick;
      var frag := Min(delta, loopEnd - itick);
      delta := delta - frag;
      itick := itick + frag;
      if itick == loopEnd {
        PosWraps(Looping(), 0, frag);
        PosLoops(Looping(), frag, delta);
        itick := loopStart;
        if delta != 0 {
          var frac := delta % (loopEnd - loopStart);
          itick := itick + frac;
        }
      } else {
        PosRuns(Looping(), 0, frag);
      }
    }

    /** Plays up to an external tick: the events are those of stepping tick by tick, a delay is silent. */
    method Generate(target: int) returns (advanced: int, out: seq<Timed>)
      requires Valid() && InPlace()
      modifies `xtick, `itick
      ensures InPlace() && xtick == Reached(old(xtick), target, last) && advanced == xtick - old(xtick)
      ensures out == if muted then [] else Played(Looping(), events, Max(old(xtick), 0), Max(xtick, 0))
      ensures !muted ==>
                && OnlyMet(Looping(), events, Max(old(xtick), 0), Max(xtick, 0), out)
                && AllMet(Looping(), events, Max(old(xtick), 0), Max(xtick, 0), out)
    {
      hide Pos, Visible, StrictlySorted, Cut, Emit, StepsThrough, Played, ByTick, OnlyMet, AllMet;
      var oldXtick := xtick;
      PlayedSounds(Looping(), events, Max(xtick, 0), Max(Reached(xtick, target, last), 0));
      out := [];
      NothingPlayed(Looping(), events, Max(xtick, 0));
      if !(xtick < last && target > xtick) { return xtick - oldXtick, []; }
      var ticks := Min(target, last) - xtick;
      if xtick < 0 {
        var delta := Min(ticks, -xtick);
        ticks := ticks - delta;
        xtick := xtick + delta;
        itick := itick + delta;
        if itick == 0 {
          itick := startOffset;
          PosStart(Looping());
        }
      }
      while ticks > 0
        invariant InPlace() && 0 <= ticks && xtick + ticks == Min(target, last) && (ticks > 0 ==> 0 <= xtick)
        invariant out == if muted then [] else Played(Looping(), events, Max(oldXtick, 0), Max(xtick, 0))
      {
        var delta := if itick < loopEnd then Min(ticks, loopEnd - itick) else ticks;
        ticks := ticks - delta;
        var x := xtick;
        xtick := xtick + delta;
        var a := itick;
        itick := itick + delta;
        var b := itick;
        if itick == loopEnd {
          itick := loopStart;
        }
        ChunkMoves(Looping(), x, a, delta);
        if !muted {
          var chunk, i, j := PlayChunk(a, b, x);
          StrictByTick(events);
          ChunkPlayed(Looping(), events, x, a, delta, i, j);
          PlayedSplits(Looping(), events, Max(oldXtick, 0), x, xtick);
          out := out + chunk;
        }
      }
      return xtick - oldXtick, out;
    }

    /** The receiver's two calls for a note. */
    static method SendNote(event: Note, a: int, x: int) returns (sent: seq<Timed>)
      ensures sent == Emit([event], x - a)
      ensures |sent| == 2 && Sounds(event, x + event.tick - a, sent[0], sent[1])
    {
      var midievent := On(event);
      var noteonTick := x + event.tick - a;
      sent := [Timed(noteonTick, midievent)];
      midievent := midievent.(kind := NoteOff);
      sent := sent + [Timed(noteonTick + event.duration, midievent)];
      EmitOne(event, x - a);
    }

    /** Sends the notes of one chunk [a, b) that starts at external tick x. */
    method PlayChunk(a: int, b: int, x: int) returns (out: seq<Timed>, ghost i: nat, ghost j: nat)
      requires Valid() && a <= b
      ensures i <= j && Cut(events, a, i) && Cut(events, b, j) && out == Emit(events[i..j], x - a)
      ensures |out| == 2 * (j - i)
      ensures forall k :: i <= k < j ==> SoundsIn(out, k - i, events[k], x + events[k].tick - a)
    {
      hide Lawful, Emit, ByTick, Visible, StrictlySorted, Cut, CompareTicks;
      TicksLawful();
      StrictByTick(events);
      out := [];
      var first := LookupAfter(CompareTicks, events, Index(a));
      LookupCuts(events, a, first);
      CutBelow(events, a, first);
      var k := first;
      EmitNothing(events, first, x - a);
      while k < |events| && events[k].tick < b
        invariant first <= k <= |events| && out == Emit(events[first..k], x - a)
        invariant k > 0 ==> events[k - 1].tick < b
      {
        var sent := SendNote(events[k], a, x);
        EmitNext(events, first, k, x - a);
        out := out + sent;
        k := k + 1;
      }
      CutBetween(events, b, k);
      i, j := first, k;
      EmitSounds(events[i..j], x - a);
      forall m | i <= m < j ensures SoundsIn(out, m - i, events[m], x + events[m].tick - a) {
        assert events[i..j][m - i] == events[m];
      }
    }
  }

  // ----- several calls

  /** How far a call of generate() gets. */
  function Reached(x: int, target: int, last: int): int {
    if x < last && target > x then Min(target, last) else x
  }

  /** Splitting one call of generate() into two changes neither the events nor the final position. */
  lemma GenerateSplits(l: Loop, notes: seq<Note>, last: int, x: int, mid: int, target: int)
    requires 0 <= last && mid <= target
    ensures var y := Reached(x, mid, last);
            && Reached(y, target, last) == Reached(x, target, last)
            && Played(l, notes, Max(x, 0), Max(y, 0)) + Played(l, notes, Max(y, 0), Max(Reached(y, target, last), 0))
               == Played(l, notes, Max(x, 0), Max(Reached(x, target, last), 0))
  {
    PlayedSplits(l, notes, Max(x, 0), Max(Reached(x, mid, last), 0), Max(Reached(x, target, last), 0));
  }

  /** A seek and stepping from the start leave two generators of the same clip in the same state. */
  method SeekLikeStepping(seek: Generator, step: Generator, target: int)
    requires seek != step && seek.Valid() && step.Valid() && 0 <= target
    requires seek.Looping() == step.Looping() && seek.last == step.last
    requires seek.startOffset < seek.loopEnd && seek.loopStart < seek.loopEnd
    modifies seek, step
    ensures seek.xtick == step.xtick && seek.itick == step.itick
  {
    seek.JumpTo(target);
    step.JumpTo(0);
    var advanced, out := step.Generate(target);
  }

  lemma CutBelow(notes: seq<Note>, t: int, k: nat)
    requires Cut(notes, t, k)
    ensures k > 0 ==> notes[k - 1].tick < t
  {
  }

  lemma CutBetween(notes: seq<Note>, t: int, k: nat)
    requires ByTick(notes) && k <= |notes|
    requires k > 0 ==> notes[k - 1].tick < t
    requires k < |notes| ==> t <= notes[k].tick
    ensures Cut(notes, t, k)
  {
  }
}
