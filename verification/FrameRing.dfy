/**
 FrameRingBuffer: one producer and one consumer thread share a ring of frames and two position variables. Each
 load of the other thread's position, each copied element and each store of a position is one step.
 */
module FrameRing {
  import opened Basics

  /** One sample per channel. */
  type Frame = seq<real>

  /** A thread inside write() or read() is about to copy element k of channel ch; ch is past the last channel when
      all is copied. `can` is the number of frames it found it may transfer. */
  datatype Producer = NotWriting | Writing(data: seq<Frame>, can: nat, ch: nat, k: nat)

  datatype Consumer = NotReading | Reading(can: nat, ch: nat, k: nat, out: seq<seq<real>>)

  /** The books: all frames ever published by the producer and all frames ever returned to the consumer. */
  datatype Books = Books(written: seq<Frame>, read: seq<Frame>)

  datatype Ring = Ring(size: nat, channels: nat, buffer: seq<seq<real>>, rpos: nat, wpos: nat,
                       producer: Producer, consumer: Consumer, books: Books)

  datatype Step =
    | StartWrite(data: seq<Frame>)
    | CopyIn
    | PublishWrite
    | StartRead(n: nat)
    | CopyOut
    | PublishRead

  function Readable(c: Ring): int {
    (if c.wpos < c.rpos then c.wpos + c.size else c.wpos) - c.rpos
  }

  function Writable(c: Ring): int {
    (if c.rpos <= c.wpos then c.rpos + c.size else c.rpos) - c.wpos - 1
  }

  /** Where element k of a transfer of `can` frames from position pos lies. */
  function Place(size: nat, pos: nat, can: nat, k: nat): int {
    var first := Min(can, size - pos);
    if k < first then pos + k else k - first
  }

  predicate InBuffer(c: Ring, ch: nat, place: int) {
    ch < |c.buffer| && 0 <= place < |c.buffer[ch]|
  }

  predicate Enabled(c: Ring, s: Step) {
    match s
    case StartWrite(data) => c.producer.NotWriting? && forall f :: f in data ==> |f| == c.channels
    case CopyIn =>
      && c.producer.Writing? && c.producer.ch < c.channels && c.producer.k < |c.producer.data|
      && |c.producer.data[c.producer.k]| == c.channels
      && InBuffer(c, c.producer.ch, Place(c.size, c.wpos, c.producer.can, c.producer.k))
    case PublishWrite =>
      c.producer.Writing? && c.producer.ch == c.channels && 0 < c.size && c.producer.can <= |c.producer.data|
    case StartRead(n) => c.consumer.NotReading?
    case CopyOut =>
      && c.consumer.Reading? && c.consumer.ch < c.channels && c.consumer.ch < |c.consumer.out|
      && InBuffer(c, c.consumer.ch, Place(c.size, c.rpos, c.consumer.can, c.consumer.k))
    case PublishRead => c.consumer.Reading? && c.consumer.ch == c.channels && 0 < c.size
  }

  /** The channel loop: next element, or first element of the next channel. */
  function NextChannel(can: nat, ch: nat, k: nat): nat { if k + 1 < can then ch else ch + 1 }

  function NextIndex(can: nat, k: nat): nat { if k + 1 < can then k + 1 else 0 }

  function FirstChannel(c: Ring, can: nat): nat { if can == 0 then c.channels else 0 }

  function Transfer(available: int, n: nat): nat { if available < 0 then 0 else Min(available, n) }

  /** Frames from per-channel data. */
  function Frames(out: seq<seq<real>>, n: nat): seq<Frame>
    requires forall c :: 0 <= c < |out| ==> |out[c]| == n
  {
    seq(n, j requires 0 <= j < n => seq(|out|, c requires 0 <= c < |out| => out[c][j]))
  }

  function Returned(out: seq<seq<real>>, n: nat): seq<Frame> {
    if forall c :: 0 <= c < |out| ==> |out[c]| == n then Frames(out, n) else []
  }

  function Apply(c: Ring, s: Step): Ring
    requires Enabled(c, s)
  {
    match s
    case StartWrite(data) =>
      var can := Transfer(Writable(c), |data|);
      c.(producer := Writing(data, can, FirstChannel(c, can), 0))
    case CopyIn =>
      var p := c.producer;
      var place := Place(c.size, c.wpos, p.can, p.k);
      c.(buffer := c.buffer[p.ch := c.buffer[p.ch][place := p.data[p.k][p.ch]]],
         producer := Writing(p.data, p.can, NextChannel(p.can, p.ch, p.k), NextIndex(p.can, p.k)))
    case PublishWrite =>
      c.(wpos := (c.wpos + c.producer.can) % c.size, producer := NotWriting,
         books := c.books.(written := c.books.written + c.producer.data[..c.producer.can]))
    case StartRead(n) =>
      var can := Transfer(Readable(c), n);
      c.(consumer := Reading(can, FirstChannel(c, can), 0, seq(c.channels, _ => [])))
    case CopyOut =>
      var q := c.consumer;
      var x := c.buffer[q.ch][Place(c.size, c.rpos, q.can, q.k)];
      c.(consumer := Reading(q.can, NextChannel(q.can, q.ch, q.k), NextIndex(q.can, q.k),
                             q.out[q.ch := q.out[q.ch] + [x]]))
    case PublishRead =>
      c.(rpos := (c.rpos + c.consumer.can) % c.size, consumer := NotReading,
         books := c.books.(read := c.books.read + Returned(c.consumer.out, c.consumer.can)))
  }

  /** resize(): an empty ring for n frames. */
  predicate Init(c: Ring) {
    && 0 < c.size && |c.buffer| == c.channels
    && (forall ch :: 0 <= ch < c.channels ==> |c.buffer[ch]| == c.size)
    && c.rpos == 0 && c.wpos == 0 && c.producer == NotWriting && c.consumer == NotReading
    && c.books == Books([], [])
  }

  ghost predicate IsRun(c: Ring, steps: seq<Step>)
    decreases |steps|
  {
    steps == [] || (Enabled(c, steps[0]) && IsRun(Apply(c, steps[0]), steps[1..]))
  }

  ghost function Final(c: Ring, steps: seq<Step>): Ring
    requires IsRun(c, steps)
    decreases |steps|
  {
    if steps == [] then c else Final(Apply(c, steps[0]), steps[1..])
  }

  // ----- slots

  /** The slot of the i-th frame ever written. */
  function Slot(i: nat, size: nat): nat
    requires 0 < size
  {
    i % size
  }

  /** Advancing a slot by less than the size wraps at most once. */
  lemma SlotPlus(i: nat, d: nat, size: nat)
    requires 0 < size && d <= size
    ensures var s := Slot(i, size) + d; Slot(i + d, size) == if s < size then s else s - size
  {
    var q, s := i / size, Slot(i, size) + d;
    assert i == size * q + Slot(i, size);
    if s < size {
      ModUnique(i + d, size, q, s);
    } else {
      assert size * (q + 1) == size * q + size;
      ModUnique(i + d, size, q + 1, s - size);
    }
  }

  lemma SlotsApart(i: nat, j: nat, size: nat)
    requires 0 < size && i < j < i + size
    ensures Slot(i, size) != Slot(j, size)
  {
    hide Slot;
    SlotPlus(i, j - i, size);
    SlotBelow(i, size);
  }

  lemma SlotBelow(i: nat, size: nat)
    requires 0 < size
    ensures Slot(i, size) < size
  {
  }

  // ----- invariant

  function W(c: Ring): nat { |c.books.written| }

  function R(c: Ring): nat { |c.books.read| }

  ghost predicate Shape(c: Ring) {
    0 < c.size && |c.buffer| == c.channels && forall e :: 0 <= e < c.channels ==> |c.buffer[e]| == c.size
  }

  ghost predicate AllFrames(c: Ring, fs: seq<Frame>) {
    forall i :: 0 <= i < |fs| ==> |fs[i]| == c.channels
  }

  ghost predicate Positions(c: Ring) {
    && Shape(c) && AllFrames(c, c.books.written)
    && R(c) <= W(c) < R(c) + c.size
    && c.rpos == Slot(R(c), c.size) && c.wpos == Slot(W(c), c.size)
    && c.books.read <= c.books.written
  }

  /** The slot of frame i holds sample e of frame f. */
  ghost predicate Holds(buffer: seq<seq<real>>, size: nat, e: nat, i: nat, f: Frame) {
    && 0 < size && e < |buffer| && Slot(i, size) < |buffer[e]| && e < |f|
    && buffer[e][Slot(i, size)] == f[e]
  }

  /** Every frame published and not yet returned is in its slot on all channels. */
  ghost predicate Stored(c: Ring) {
    forall e, i :: 0 <= e < c.channels && R(c) <= i < W(c) ==> Holds(c.buffer, c.size, e, i, c.books.written[i])
  }

  predicate Cursor(c: Ring, can: nat, ch: nat, k: nat) {
    (ch < c.channels && k < can) || (ch == c.channels && k == 0)
  }

  predicate Copied(ch: nat, k: nat, e: nat, j: nat) { e < ch || (e == ch && j < k) }

  ghost predicate ProducerOk(c: Ring) {
    match c.producer
    case NotWriting => true
    case Writing(data, can, ch, k) =>
      && can <= |data| && AllFrames(c, data) && W(c) + can < R(c) + c.size && Cursor(c, can, ch, k)
      && forall e, j :: 0 <= e < c.channels && 0 <= j < can && Copied(ch, k, e, j) ==>
        Holds(c.buffer, c.size, e, W(c) + j, data[j])
  }

  ghost predicate Got(b: Books, out: seq<seq<real>>, e: nat, j: nat) {
    && e < |out| && j < |out[e]| && |b.read| + j < |b.written| && e < |b.written[|b.read| + j]|
    && out[e][j] == b.written[|b.read| + j][e]
  }

  ghost predicate ConsumerOk(c: Ring) {
    match c.consumer
    case NotReading => true
    case Reading(can, ch, k, out) =>
      && R(c) + can <= W(c) && Cursor(c, can, ch, k) && |out| == c.channels
      && (forall e :: 0 <= e < c.channels ==> |out[e]| == if e < ch then can else if e == ch then k else 0)
      && (forall e, j :: 0 <= e < c.channels && 0 <= j < can && Copied(ch, k, e, j) ==> Got(c.books, out, e, j))
  }

  ghost predicate Inv(c: Ring) {
    Positions(c) && Stored(c) && ProducerOk(c) && ConsumerOk(c)
  }

  /** Both threads' counts are exact up to what the other has not published yet. */
  lemma Counts(c: Ring)
    requires Positions(c)
    ensures Readable(c) == W(c) - R(c) && Writable(c) == R(c) + c.size - 1 - W(c)
  {
    hide Slot;
    SlotPlus(R(c), W(c) - R(c), c.size);
    SlotBelow(R(c), c.size);
  }

  lemma PlaceIsSlot(c: Ring, i: nat, can: nat, k: nat)
    requires 0 < c.size && k < can && can <= c.size
    ensures Place(c.size, Slot(i, c.size), can, k) == Slot(i + k, c.size)
    ensures 0 <= Slot(i + k, c.size) < c.size
  {
    hide Slot;
    SlotBelow(i, c.size);
    SlotPlus(i, k, c.size);
    SlotBelow(i + k, c.size);
  }

  /** Writing the slot of frame x leaves the slots of all frames of the same window. */
  lemma OtherSlots(c: Ring, d: Ring, ch: nat, x: nat, v: real, e: nat, i: nat, f: Frame)
    requires Shape(c) && ch < c.channels && d.size == c.size
    requires Slot(x, c.size) < c.size && d.buffer == c.buffer[ch := c.buffer[ch][Slot(x, c.size) := v]]
    requires Holds(c.buffer, c.size, e, i, f) && (e != ch || (i != x && i < x + c.size && x < i + c.size))
    ensures Holds(d.buffer, d.size, e, i, f)
  {
    hide Slot;
    if e == ch {
      if i < x { SlotsApart(i, x, c.size); } else { SlotsApart(x, i, c.size); }
    }
  }

  lemma CopyInStored(c: Ring)
    requires Positions(c) && Stored(c) && ProducerOk(c) && Enabled(c, CopyIn)
    ensures Stored(Apply(c, CopyIn))
  {
    hide Slot, Holds, Place;
    var p, d := c.producer, Apply(c, CopyIn);
    PlaceIsSlot(c, W(c), p.can, p.k);
    forall e, i | 0 <= e < c.channels && R(c) <= i < W(c) ensures Holds(d.buffer, d.size, e, i, d.books.written[i]) {
      assert Holds(c.buffer, c.size, e, i, c.books.written[i]);
      OtherSlots(c, d, p.ch, W(c) + p.k, p.data[p.k][p.ch], e, i, c.books.written[i]);
    }
  }

  lemma CopiedNext(can: nat, ch: nat, k: nat, e: nat, j: nat)
    requires k < can && j < can
    ensures Copied(NextChannel(can, ch, k), NextIndex(can, k), e, j) <==> Copied(ch, k, e, j) || (e == ch && j == k)
  {
  }

  lemma CopyInProducer(c: Ring)
    requires Positions(c) && ProducerOk(c) && Enabled(c, CopyIn)
    ensures ProducerOk(Apply(c, CopyIn))
  {
    hide Slot, Holds, Place, Copied, NextChannel, NextIndex;
    var p, d := c.producer, Apply(c, CopyIn);
    var x := W(c) + p.k;
    PlaceIsSlot(c, W(c), p.can, p.k);
    CursorNext(c, p.can, p.ch, p.k);
    forall e, j | 0 <= e < c.channels && 0 <= j < p.can && Copied(d.producer.ch, d.producer.k, e, j)
      ensures Holds(d.buffer, d.size, e, W(c) + j, p.data[j])
    {
      CopiedNext(p.can, p.ch, p.k, e, j);
      if e == p.ch && j == p.k {
        JustWritten(c, d, e, x, p.data[j]);
      } else {
        OtherSlots(c, d, p.ch, x, p.data[p.k][p.ch], e, W(c) + j, p.data[j]);
      }
    }
  }

  lemma CursorNext(c: Ring, can: nat, ch: nat, k: nat)
    requires ch < c.channels && k < can
    ensures Cursor(c, can, NextChannel(can, ch, k), NextIndex(can, k))
  {
  }

  lemma JustWritten(c: Ring, d: Ring, e: nat, x: nat, f: Frame)
    requires Shape(c) && e < c.channels && d.size == c.size && e < |f|
    requires Slot(x, c.size) < c.size && d.buffer == c.buffer[e := c.buffer[e][Slot(x, c.size) := f[e]]]
    ensures Holds(d.buffer, d.size, e, x, f)
  {
  }

  lemma PublishWriteInv(c: Ring)
    requires Inv(c) && Enabled(c, PublishWrite)
    ensures Inv(Apply(c, PublishWrite))
  {
    hide Slot, Copied;
    var p, d := c.producer, Apply(c, PublishWrite);
    SlotBelow(W(c), c.size);
    SlotPlus(W(c), p.can, c.size);
    WrapsOnce(c.wpos, p.can, c.size);
    forall e, i | 0 <= e < c.channels && R(c) <= i < W(d) ensures Holds(d.buffer, d.size, e, i, d.books.written[i]) {
      if i < W(c) {
        assert Holds(c.buffer, c.size, e, i, c.books.written[i]);
      } else {
        BeforeEnd(c.channels, e, i - W(c));
        assert Holds(c.buffer, c.size, e, W(c) + (i - W(c)), p.data[i - W(c)]);
      }
    }
    PublishedConsumer(c, d);
  }

  lemma BeforeEnd(channels: nat, e: nat, j: nat)
    requires e < channels
    ensures Copied(channels, 0, e, j)
  {
  }

  lemma WrapsOnce(s: nat, d: nat, size: nat)
    requires s < size && d <= size
    ensures (s + d) % size == if s + d < size then s + d else s + d - size
  {
    if s + d >= size { ModUnique(s + d, size, 1, s + d - size); }
  }

  lemma PublishedConsumer(c: Ring, d: Ring)
    requires ConsumerOk(c) && d.consumer == c.consumer && d.channels == c.channels && R(d) == R(c)
    requires c.books.written <= d.books.written
    ensures ConsumerOk(d)
  {
    if c.consumer.Reading? {
      var q := c.consumer;
      forall e, j | 0 <= e < c.channels && 0 <= j < q.can && Copied(q.ch, q.k, e, j) ensures Got(d.books, q.out, e, j) {
        assert Got(c.books, q.out, e, j);
      }
    }
  }

  lemma StartInv(c: Ring, s: Step)
    requires Inv(c) && Enabled(c, s) && (s.StartWrite? || s.StartRead?)
    ensures Inv(Apply(c, s))
  {
    hide Slot, Holds, Got, Copied;
    Counts(c);
    NothingCopied();
  }

  lemma NothingCopied()
    ensures forall e: nat, j: nat :: !Copied(0, 0, e, j)
  {
  }

  lemma CopyInInv(c: Ring)
    requires Inv(c) && Enabled(c, CopyIn)
    ensures Inv(Apply(c, CopyIn))
  {
    hide Slot, Holds, Place, NextChannel, NextIndex, Copied, ProducerOk, Stored, Got, Cursor;
    CopyInStored(c);
    CopyInProducer(c);
    SameBooks(c, Apply(c, CopyIn));
  }

  lemma SameBooks(c: Ring, d: Ring)
    requires d.books == c.books && d.consumer == c.consumer && d.channels == c.channels && ConsumerOk(c)
    ensures ConsumerOk(d)
  {
    hide Got, Copied;
  }

  lemma CopyOutInv(c: Ring)
    requires Inv(c) && Enabled(c, CopyOut)
    ensures Inv(Apply(c, CopyOut))
  {
    hide Slot, Place, Copied, NextChannel, NextIndex, Holds, Got, ProducerOk;
    var q, d := c.consumer, Apply(c, CopyOut);
    CursorNext(c, q.can, q.ch, q.k);
    CopyOutGets(c);
    CopyOutLengths(c);
    forall e, j | 0 <= e < c.channels && 0 <= j < q.can && Copied(d.consumer.ch, d.consumer.k, e, j)
      ensures Got(d.books, d.consumer.out, e, j)
    {
      CopiedNext(q.can, q.ch, q.k, e, j);
      if !(e == q.ch && j == q.k) { StillGot(c, e, j); }
    }
    SameProducer(c, d);
  }

  lemma SameProducer(c: Ring, d: Ring)
    requires ProducerOk(c) && d.producer == c.producer && d.channels == c.channels && d.buffer == c.buffer
    requires d.size == c.size && d.books.written == c.books.written && R(c) <= R(d)
    ensures ProducerOk(d)
  {
    hide Holds, Copied;
  }

  lemma CopyOutGets(c: Ring)
    requires Inv(c) && Enabled(c, CopyOut)
    ensures Got(c.books, Apply(c, CopyOut).consumer.out, c.consumer.ch, c.consumer.k)
  {
    hide Slot, Place;
    var q := c.consumer;
    PlaceIsSlot(c, R(c), q.can, q.k);
    assert Holds(c.buffer, c.size, q.ch, R(c) + q.k, c.books.written[R(c) + q.k]);
  }

  lemma StillGot(c: Ring, e: nat, j: nat)
    requires Enabled(c, CopyOut) && Got(c.books, c.consumer.out, e, j)
    ensures Got(c.books, Apply(c, CopyOut).consumer.out, e, j)
  {
    hide Place;
  }

  lemma CopyOutLengths(c: Ring)
    requires Enabled(c, CopyOut) && ConsumerOk(c)
    ensures var q := Apply(c, CopyOut).consumer;
            && |q.out| == c.channels
            && forall e :: 0 <= e < c.channels ==>
              |q.out[e]| == if e < q.ch then q.can else if e == q.ch then q.k else 0
  {
    hide Place, Got, Copied;
  }

  lemma PublishReadInv(c: Ring)
    requires Inv(c) && Enabled(c, PublishRead)
    ensures Inv(Apply(c, PublishRead))
    ensures Apply(c, PublishRead).books.read == c.books.read + c.books.written[R(c)..R(c) + c.consumer.can]
  {
    hide Slot, Copied, Holds;
    var q, d := c.consumer, Apply(c, PublishRead);
    ReturnedFrames(c);
    SlotBelow(R(c), c.size);
    SlotPlus(R(c), q.can, c.size);
    WrapsOnce(c.rpos, q.can, c.size);
    SameProducer(c, d);
  }

  /** The frames handed to the consumer are the next ones written. */
  lemma ReturnedFrames(c: Ring)
    requires Positions(c) && ConsumerOk(c) && Enabled(c, PublishRead)
    ensures Returned(c.consumer.out, c.consumer.can) == c.books.written[R(c)..R(c) + c.consumer.can]
  {
    hide Copied;
    var q := c.consumer;
    var fs := Frames(q.out, q.can);
    forall j | 0 <= j < q.can ensures fs[j] == c.books.written[R(c) + j] {
      forall e | 0 <= e < c.channels ensures fs[j][e] == c.books.written[R(c) + j][e] {
        BeforeEnd(c.channels, e, j);
        assert Got(c.books, q.out, e, j);
      }
    }
  }

  lemma StepInv(c: Ring, s: Step)
    requires Inv(c) && Enabled(c, s)
    ensures Inv(Apply(c, s))
  {
    hide Inv, Apply, Enabled;
    match s
    case StartWrite(_) => StartInv(c, s);
    case StartRead(_) => StartInv(c, s);
    case CopyIn => CopyInInv(c);
    case CopyOut => CopyOutInv(c);
    case PublishWrite => PublishWriteInv(c);
    case PublishRead => PublishReadInv(c);
  }

  lemma InitInv(c: Ring)
    requires Init(c)
    ensures Inv(c)
  {
  }

  lemma {:induction false} RunInvariant(c: Ring, steps: seq<Step>)
    requires Inv(c) && IsRun(c, steps)
    ensures Inv(Final(c, steps))
    decreases |steps|
  {
    hide Inv;
    if steps != [] {
      StepInv(c, steps[0]);
      RunInvariant(Apply(c, steps[0]), steps[1..]);
    }
  }

  /** In every interleaving the frames read are a prefix of the frames written, on all channels, and every frame
      written and not yet read is intact in its slot. */
  lemma ReadsAreAPrefix(c: Ring, steps: seq<Step>)
    requires Init(c) && IsRun(c, steps)
    ensures var d := Final(c, steps);
            && d.books.read <= d.books.written
            && |d.books.written| - |d.books.read| < d.size
            && Stored(d)
  {
    InitInv(c);
    RunInvariant(c, steps);
  }

  /** Space a thread has seen can only grow until that thread uses it itself. */
  lemma SpaceLasts(c: Ring, s: Step)
    requires Inv(c) && Enabled(c, s)
    ensures !s.PublishWrite? ==> Writable(c) <= Writable(Apply(c, s))
    ensures !s.PublishRead? ==> Readable(c) <= Readable(Apply(c, s))
  {
    hide Slot, Holds, Stored;
    StepInv(c, s);
    Counts(c);
    Counts(Apply(c, s));
    if s.PublishRead? { PublishReadInv(c); }
  }

  predicate OfProducer(s: Step) { s.StartWrite? || s.CopyIn? || s.PublishWrite? }

  /** A step of one thread leaves the other thread's progress alone. */
  lemma OtherThread(c: Ring, s: Step)
    requires Enabled(c, s)
    ensures OfProducer(s) ==> Apply(c, s).consumer == c.consumer
    ensures !OfProducer(s) ==> Apply(c, s).producer == c.producer
    ensures Apply(c, s).size == c.size && Apply(c, s).channels == c.channels
  {
  }

  /** Neither thread ever touches memory outside the buffers: what it is about to do is always possible. */
  lemma CopiesInBounds(c: Ring)
    requires Inv(c)
    ensures c.producer.Writing? ==> Enabled(c, if c.producer.ch < c.channels then CopyIn else PublishWrite)
    ensures c.consumer.Reading? ==> Enabled(c, if c.consumer.ch < c.channels then CopyOut else PublishRead)
  {
    hide Slot, Place, Holds, Got;
    if c.producer.Writing? && c.producer.ch < c.channels {
      PlaceIsSlot(c, W(c), c.producer.can, c.producer.k);
    }
    if c.consumer.Reading? && c.consumer.ch < c.channels {
      PlaceIsSlot(c, R(c), c.consumer.can, c.consumer.k);
    }
  }

  // ----- what a call transfers

  /** Frames published and not yet returned, and what is left for the producer, by the books. */
  function Unread(c: Ring): int { W(c) - R(c) }

  function Space(c: Ring): int { c.size - 1 - Unread(c) }

  lemma {:induction false} Cons(c: Ring, s: Step, rest: seq<Step>) returns (steps: seq<Step>)
    requires Enabled(c, s) && IsRun(Apply(c, s), rest)
    ensures steps == [s] + rest && IsRun(c, steps) && Final(c, steps) == Final(Apply(c, s), rest)
  {
    steps := [s] + rest;
    assert steps[1..] == rest;
  }

  /** A write under way ends, when the producer alone goes on, with its frames published. */
  lemma {:induction false} WriteEnds(c: Ring) returns (steps: seq<Step>)
    requires Inv(c) && c.producer.Writing?
    ensures IsRun(c, steps) && forall s :: s in steps ==> OfProducer(s)
    ensures var d := Final(c, steps);
            && d.producer.NotWriting? && c.producer.can <= |c.producer.data|
            && d.books == c.books.(written := c.books.written + c.producer.data[..c.producer.can])
    decreases c.channels - c.producer.ch, c.producer.can - c.producer.k
  {
    hide Inv, Final, IsRun;
    WriterFacts(c);
    CopiesInBounds(c);
    if c.producer.ch < c.channels {
      var d := Apply(c, CopyIn);
      StepInv(c, CopyIn);
      steps := WriteEnds(d);
      steps := Cons(c, CopyIn, steps);
    } else {
      Nothing(Apply(c, PublishWrite));
      steps := Cons(c, PublishWrite, []);
    }
  }

  lemma Nothing(c: Ring)
    ensures IsRun(c, []) && Final(c, []) == c
  {
  }

  lemma WriterFacts(c: Ring)
    requires Inv(c) && c.producer.Writing?
    ensures c.producer.can <= |c.producer.data| && Cursor(c, c.producer.can, c.producer.ch, c.producer.k)
  {
  }

  lemma ReaderFacts(c: Ring)
    requires Inv(c) && c.consumer.Reading?
    ensures R(c) + c.consumer.can <= W(c) && Cursor(c, c.consumer.can, c.consumer.ch, c.consumer.k)
  {
  }

  /** A read under way ends, when the consumer alone goes on, with the next frames returned. */
  lemma {:induction false} ReadEnds(c: Ring) returns (steps: seq<Step>)
    requires Inv(c) && c.consumer.Reading?
    ensures IsRun(c, steps) && forall s :: s in steps ==> !OfProducer(s)
    ensures var d := Final(c, steps);
            && d.consumer.NotReading? && R(c) + c.consumer.can <= W(c)
            && d.books == c.books.(read := c.books.read + c.books.written[R(c)..R(c) + c.consumer.can])
    decreases c.channels - c.consumer.ch, c.consumer.can - c.consumer.k
  {
    hide Inv, Final, IsRun, Returned;
    ReaderFacts(c);
    CopiesInBounds(c);
    if c.consumer.ch < c.channels {
      var d := Apply(c, CopyOut);
      StepInv(c, CopyOut);
      steps := ReadEnds(d);
      steps := Cons(c, CopyOut, steps);
    } else {
      PublishReadInv(c);
      Nothing(Apply(c, PublishRead));
      steps := Cons(c, PublishRead, []);
    }
  }

  /** write() publishes as many of its frames as there is space for. */
  lemma WriteTransfers(c: Ring, data: seq<Frame>) returns (steps: seq<Step>)
    requires Inv(c) && Enabled(c, StartWrite(data))
    ensures IsRun(c, steps) && forall s :: s in steps ==> OfProducer(s)
    ensures 0 <= Space(c)
    ensures Final(c, steps).books == c.books.(written := c.books.written + data[..Min(|data|, Space(c))])
  {
    hide Final, IsRun;
    Counts(c);
    StepInv(c, StartWrite(data));
    steps := WriteEnds(Apply(c, StartWrite(data)));
    steps := Cons(c, StartWrite(data), steps);
  }

  /** read() returns the next frames, as many as asked for if there are. */
  lemma ReadTransfers(c: Ring, n: nat) returns (steps: seq<Step>)
    requires Inv(c) && Enabled(c, StartRead(n))
    ensures IsRun(c, steps) && forall s :: s in steps ==> !OfProducer(s)
    ensures 0 <= Unread(c)
    ensures Final(c, steps).books == c.books.(read := c.books.written[..R(c) + Min(n, Unread(c))])
  {
    hide Final, IsRun;
    Counts(c);
    StepInv(c, StartRead(n));
    steps := ReadEnds(Apply(c, StartRead(n)));
    steps := Cons(c, StartRead(n), steps);
    var can := Min(n, Unread(c));
    assert c.books.read == c.books.written[..R(c)];
    assert c.books.written[..R(c)] + c.books.written[R(c)..R(c) + can] == c.books.written[..R(c) + can];
  }

  /** What a call may transfer is settled when it starts, from the books. */
  lemma StartCounts(c: Ring, s: Step)
    requires Inv(c) && Enabled(c, s)
    ensures s.StartWrite? ==> Apply(c, s).producer.Writing? && Apply(c, s).producer.can == Min(|s.data|, Space(c))
    ensures s.StartRead? ==> Apply(c, s).consumer.Reading? && Apply(c, s).consumer.can == Min(s.n, Unread(c))
    ensures Readable(c) == Unread(c) && Writable(c) == Space(c)
  {
    hide Slot, Holds, Stored;
    Counts(c);
  }
}
