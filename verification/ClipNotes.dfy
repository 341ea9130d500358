/** Clip notes, their two orders, and the MIDI events they turn into (clip.hh, midievent.cc). */
module ClipNotes {
  import opened Basics
  import opened SortedLists

  datatype Note = Note(id: int, channel: int, key: int, selected: bool, tick: int, duration: int,
                       velocity: real, tuning: real)

  datatype Kind = NoteOn | NoteOff

  datatype MidiEvent = MidiEvent(kind: Kind, channel: int, key: int, velocity: real, tuning: real, id: int)

  /** An event and the tick it is due. */
  datatype Timed = Timed(tick: int, event: MidiEvent)

  function CompareLesser(a: int, b: int): int { if a < b then -1 else if b < a then 1 else 0 }

  function Flag(b: bool): int { if b then 1 else 0 }

  function CompareTicks(a: Note, b: Note): int {
    if a.tick != b.tick then CompareLesser(a.tick, b.tick)
    else if a.key != b.key then CompareLesser(a.key, b.key)
    else if a.channel != b.channel then CompareLesser(a.channel, b.channel)
    else if a.selected != b.selected then CompareLesser(Flag(a.selected), Flag(b.selected))
    else CompareLesser(a.id, b.id)
  }

  function CompareIds(a: Note, b: Note): int { CompareLesser(a.id, b.id) }

  lemma TicksLawful()
    ensures Lawful(CompareTicks)
  {
  }

  /** Notes with unique ids, as an EventList with CompareIds holds them, sort without ties. */
  lemma {:induction false} UniqueIdsSortStrictly(notes: seq<Note>)
    requires StrictlySorted(CompareIds, notes)
    ensures StrictlySorted(CompareTicks, StableSort(CompareTicks, notes))
  {
    TicksLawful();
    StableSortSorts(CompareTicks, notes);
    var t := StableSort(CompareTicks, notes);
    forall i, j | 0 <= i < j < |t| ensures CompareTicks(t[i], t[j]) < 0 {
      if CompareTicks(t[i], t[j]) == 0 {
        TwoInClass(CompareTicks, t, i, j);
        assert Class(CompareTicks, notes, t[i]) == Class(CompareTicks, t, t[i]);
        OneInClass(notes, t[i]);
      }
    }
  }

  lemma {:induction false} TwoInClass<E(!new)>(cmp: Cmp<E>, t: seq<E>, i: nat, j: nat)
    requires Lawful(cmp) && i < j < |t| && cmp(t[i], t[j]) == 0
    ensures |Class(cmp, t, t[i])| >= 2
  {
    hide Lawful;
    Orders(cmp, t[i], t[j], t[i]);
    if i == 0 {
      ClassMembers(cmp, t[1..], t[0], t[j]);
      assert t[1..][j - 1] == t[j];
    } else {
      TwoInClass(cmp, t[1..], i - 1, j - 1);
    }
  }

  lemma SameId(a: Note, b: Note, x: Note)
    requires CompareTicks(a, x) == 0 && CompareTicks(b, x) == 0
    ensures a.id == b.id
  {
  }

  lemma {:induction false} OneInClass(notes: seq<Note>, x: Note)
    requires StrictlySorted(CompareIds, notes)
    ensures |Class(CompareTicks, notes, x)| <= 1
  {
    hide CompareTicks;
    if notes != [] {
      OneInClass(notes[1..], x);
      assert forall y :: y in notes[1..] ==> notes[0].id < y.id;
      if CompareTicks(notes[0], x) == 0 && Class(CompareTicks, notes[1..], x) != [] {
        var y := Class(CompareTicks, notes[1..], x)[0];
        ClassMembers(CompareTicks, notes[1..], x, y);
        SameId(notes[0], y, x);
        assert false;
      }
    }
  }

  /** make_note_on: a note of no velocity is a note-off. */
  function On(n: Note): MidiEvent {
    MidiEvent(if n.velocity > 0.0 then NoteOn else NoteOff, n.channel, n.key, n.velocity, n.tuning, n.id)
  }

  function Off(n: Note): MidiEvent { On(n).(kind := NoteOff) }
}
