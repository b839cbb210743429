/** The single-producer single-consumer ring of stream_buffer.rs.  Writer and reader interleave at every index load,
    every byte copied and every index store; an acquire load or release store is one atomic step. */
module StreamBuffer {

  import opened Common
  import Modular

  /** The storage has one byte more than the buffer holds, so that full and empty differ. */
  type Length = n: nat | 2 <= n witness 2

  // ----- positions -----

  /** The slot of the i-th byte ever written. */
  function Slot(i: nat, length: Length): (k: nat)
    ensures k < length
  {
    i % length
  }

  /** How the source advances an index by at most the length. */
  function Wrap(k: nat, length: Length): nat { if k >= length then k - length else k }

  lemma SlotAdds(i: nat, n: nat, length: Length)
    requires n <= length
    ensures Slot(i + n, length) == Wrap(Slot(i, length) + n, length)
  {
    var q := i / length;
    assert i == q * length + Slot(i, length);
    var k := Slot(i, length) + n;
    assert k >= length ==> i + n == (q + 1) * length + (k - length) by {
      assert (q + 1) * length == q * length + length;
    }
    Modular.DivModUnique(i + n, length, if k >= length then q + 1 else q, Wrap(k, length));
  }

  /** Fewer than a whole turn apart, two bytes are in different slots. */
  lemma SlotsDiffer(i: nat, j: nat, length: Length)
    requires i < j < i + length
    ensures Slot(i, length) != Slot(j, length)
  {
    SlotAdds(i, j - i, length);
  }

  /** prvBytesInBuffer and xStreamBufferSpacesAvailable, from the two indices loaded. */
  function Bytes(head: nat, tail: nat, length: Length): nat
    requires tail < length
  {
    Wrap(length + head - tail, length)
  }

  function Spaces(head: nat, tail: nat, length: Length): nat
    requires head < length
  {
    Wrap(length + tail - head - 1, length)
  }

  /** The indices of `written` and `read` bytes count exactly what is between them. */
  lemma CountsAreExact(written: nat, read: nat, length: Length)
    requires read <= written < read + length
    ensures Bytes(Slot(written, length), Slot(read, length), length) == written - read
    ensures Spaces(Slot(written, length), Slot(read, length), length) == length - 1 - (written - read)
  {
    SlotAdds(read, written - read, length);
  }

  // ----- the state machine -----

  /** What the producer is doing.  `at` is the absolute position its loaded tail stands for; `staged` are the bytes it
      has copied in and not yet published. */
  datatype Writer = WIdle | WTail(tail: nat, at: nat) | WSpace(space: nat, staged: seq<Byte>)

  datatype Reader = RIdle | RHead(head: nat, at: nat) | RAvailable(available: nat, got: seq<Byte>)

  datatype Channel = Channel(
    length: Length, buffer: seq<Byte>, head: nat, tail: nat,
    writer: Writer, reader: Reader, sent: seq<Byte>, received: seq<Byte>)

  datatype Step =
    | LoadTail | LoadOwnHead | CopyIn(b: Byte) | PublishHead | Abandon
    | LoadHead | LoadOwnTail | CopyOut | PublishTail | Leave

  predicate Enabled(c: Channel, s: Step) {
    && c.head < c.length && c.tail < c.length && |c.buffer| == c.length
    && match s
       case LoadTail => c.writer == WIdle
       case LoadOwnHead => c.writer.WTail?
       case CopyIn(_) => c.writer.WSpace? && |c.writer.staged| < c.writer.space <= c.length
       case PublishHead => c.writer.WSpace? && |c.writer.staged| <= c.length
       case Abandon => c.writer != WIdle
       case LoadHead => c.reader == RIdle
       case LoadOwnTail => c.reader.RHead?
       case CopyOut => c.reader.RAvailable? && |c.reader.got| < c.reader.available <= c.length
       case PublishTail => c.reader.RAvailable? && |c.reader.got| <= c.length
       case Leave => c.reader != RIdle
  }

  function Next(c: Channel, s: Step): Channel
    requires Enabled(c, s)
  {
    match s
    case LoadTail => c.(writer := WTail(c.tail, |c.received|))
    case LoadOwnHead => c.(writer := WSpace(Spaces(c.head, c.writer.tail, c.length), []))
    case CopyIn(b) =>
      c.(buffer := c.buffer[Wrap(c.head + |c.writer.staged|, c.length) := b],
         writer := c.writer.(staged := c.writer.staged + [b]))
    case PublishHead =>
      c.(head := Wrap(c.head + |c.writer.staged|, c.length), sent := c.sent + c.writer.staged, writer := WIdle)
    case Abandon => c.(writer := WIdle)
    case LoadHead => c.(reader := RHead(c.head, |c.sent|))
    case LoadOwnTail => c.(reader := RAvailable(Bytes(c.reader.head, c.tail, c.length), []))
    case CopyOut => c.(reader := c.reader.(got := c.reader.got + [c.buffer[Wrap(c.tail + |c.reader.got|, c.length)]]))
    case PublishTail =>
      c.(tail := Wrap(c.tail + |c.reader.got|, c.length), received := c.received + c.reader.got, reader := RIdle)
    case Leave => c.(reader := RIdle)
  }

  // ----- invariant -----

  /** Received bytes are the first of those sent, what is between is in the buffer, and the indices say so. */
  predicate RingOk(c: Channel) {
    && |c.buffer| == c.length
    && |c.received| <= |c.sent| < |c.received| + c.length
    && c.head == Slot(|c.sent|, c.length) && c.tail == Slot(|c.received|, c.length)
    && c.received == c.sent[..|c.received|]
  }

  predicate HoldsUnread(c: Channel)
    requires |c.buffer| == c.length
  {
    forall i | |c.received| <= i < |c.sent| :: c.buffer[Slot(i, c.length)] == c.sent[i]
  }

  /** A stale tail only makes the space look smaller; staged bytes are in the slots after the head. */
  predicate WriterOk(c: Channel)
    requires |c.buffer| == c.length
  {
    match c.writer
    case WIdle => true
    case WTail(tail, at) => at <= |c.received| && |c.sent| < at + c.length && tail == Slot(at, c.length)
    case WSpace(space, staged) =>
      && |c.sent| + space < |c.received| + c.length && |staged| <= space
      && forall j | 0 <= j < |staged| :: c.buffer[Slot(|c.sent| + j, c.length)] == staged[j]
  }

  /** A stale head only makes fewer bytes look readable; the bytes copied out are the next ones sent. */
  predicate ReaderOk(c: Channel) {
    match c.reader
    case RIdle => true
    case RHead(head, at) => |c.received| <= at <= |c.sent| && head == Slot(at, c.length)
    case RAvailable(available, got) =>
      |c.received| + available <= |c.sent| && |got| <= available && got == c.sent[|c.received|..|c.received| + |got|]
  }

  predicate Inv(c: Channel) { RingOk(c) && HoldsUnread(c) && WriterOk(c) && ReaderOk(c) }

  lemma LoadKeepsInv(c: Channel, s: Step)
    requires Inv(c) && Enabled(c, s)
             && (s.LoadTail? || s.LoadOwnHead? || s.Abandon? || s.LoadHead? || s.LoadOwnTail? || s.Leave?)
    ensures Inv(Next(c, s))
  {
    hide Slot, Spaces, Bytes;
    match s
    case LoadOwnHead => CountsAreExact(|c.sent|, c.writer.at, c.length);
    case LoadOwnTail => CountsAreExact(c.reader.at, |c.received|, c.length);
    case _ =>
  }

  /** The producer's next slot holds no byte the consumer may read, nor one staged before. */
  lemma CopyInKeepsInv(c: Channel, b: Byte)
    requires Inv(c) && Enabled(c, CopyIn(b))
    ensures Inv(Next(c, CopyIn(b)))
  {
    hide Slot, Wrap;
    var n := |c.sent| + |c.writer.staged|;
    var a := Next(c, CopyIn(b));
    SlotAdds(|c.sent|, |c.writer.staged|, c.length);
    forall i | |c.received| <= i < n ensures a.buffer[Slot(i, c.length)] == c.buffer[Slot(i, c.length)] {
      SlotsDiffer(i, n, c.length);
    }
  }

  lemma PublishKeepsRing(c: Channel)
    requires RingOk(c) && WriterOk(c) && Enabled(c, PublishHead)
    ensures RingOk(Next(c, PublishHead))
  {
    hide Slot, Wrap;
    SlotAdds(|c.sent|, |c.writer.staged|, c.length);
    assert (c.sent + c.writer.staged)[..|c.received|] == c.sent[..|c.received|];
  }

  lemma PublishHoldsUnread(c: Channel)
    requires RingOk(c) && HoldsUnread(c) && WriterOk(c) && Enabled(c, PublishHead)
    ensures HoldsUnread(Next(c, PublishHead))
  {
    hide Slot, Wrap;
    var sent := c.sent + c.writer.staged;
    forall i | |c.received| <= i < |sent| ensures c.buffer[Slot(i, c.length)] == sent[i] {
      var j := i - |c.sent|;
      if j >= 0 { assert c.buffer[Slot(|c.sent| + j, c.length)] == c.writer.staged[j]; }
    }
  }

  lemma PublishKeepsReader(c: Channel)
    requires RingOk(c) && ReaderOk(c) && Enabled(c, PublishHead)
    ensures ReaderOk(Next(c, PublishHead))
  {
    hide Slot, Wrap;
    if c.reader.RAvailable? {
      assert (c.sent + c.writer.staged)[|c.received|..|c.received| + |c.reader.got|]
          == c.sent[|c.received|..|c.received| + |c.reader.got|];
    }
  }

  lemma PublishHeadKeepsInv(c: Channel)
    requires Inv(c) && Enabled(c, PublishHead)
    ensures Inv(Next(c, PublishHead))
  {
    hide RingOk, HoldsUnread, ReaderOk, Wrap;
    PublishKeepsRing(c);
    PublishHoldsUnread(c);
    PublishKeepsReader(c);
  }

  lemma CopyOutKeepsInv(c: Channel)
    requires Inv(c) && Enabled(c, CopyOut)
    ensures Inv(Next(c, CopyOut))
  {
    hide Slot, Wrap;
    SlotAdds(|c.received|, |c.reader.got|, c.length);
    assert c.buffer[Slot(|c.received| + |c.reader.got|, c.length)] == c.sent[|c.received| + |c.reader.got|];
  }

  lemma PublishTailKeepsInv(c: Channel)
    requires Inv(c) && Enabled(c, PublishTail)
    ensures Inv(Next(c, PublishTail))
  {
    hide Slot, Wrap;
    SlotAdds(|c.received|, |c.reader.got|, c.length);
  }

  lemma StepKeepsInv(c: Channel, s: Step)
    requires Inv(c) && Enabled(c, s)
    ensures Inv(Next(c, s))
  {
    hide Inv, Next, Enabled;
    match s
    case CopyIn(b) => CopyInKeepsInv(c, b);
    case PublishHead => PublishHeadKeepsInv(c);
    case CopyOut => CopyOutKeepsInv(c);
    case PublishTail => PublishTailKeepsInv(c);
    case _ => LoadKeepsInv(c, s);
  }

  predicate Initial(c: Channel) {
    && |c.buffer| == c.length && c.head == 0 && c.tail == 0 && c.writer == WIdle && c.reader == RIdle && c.sent == []
    && c.received == []
  }

  ghost predicate Run(states: seq<Channel>, steps: seq<Step>) {
    && |states| == |steps| + 1 && Initial(states[0])
    && forall i | 0 <= i < |steps| :: Enabled(states[i], steps[i]) && states[i + 1] == Next(states[i], steps[i])
  }

  /** Over every interleaving: the consumer has received a prefix of what the producer sent. */
  lemma {:induction false} Lossless(states: seq<Channel>, steps: seq<Step>)
    requires Run(states, steps)
    ensures Inv(states[|steps|]) && states[|steps|].received <= states[|steps|].sent
    decreases |steps|
  {
    if steps == [] {
      assert states[0].tail == Slot(0, states[0].length) == 0 by { Modular.DivModUnique(0, states[0].length, 0, 0); }
    } else {
      hide Next, Enabled, HoldsUnread, WriterOk, ReaderOk;
      var n := |steps| - 1;
      Lossless(states[..n + 1], steps[..n]);
      StepKeepsInv(states[n], steps[n]);
    }
  }

  /** The slots the producer may write and those the consumer may read do not meet. */
  lemma DisjointSlots(c: Channel, i: nat, j: nat)
    requires Inv(c) && c.writer.WSpace? && c.reader.RAvailable?
    requires i < c.writer.space && j < c.reader.available
    ensures Wrap(c.head + i, c.length) != Wrap(c.tail + j, c.length)
  {
    hide Slot, Wrap;
    SlotAdds(|c.sent|, i, c.length);
    SlotAdds(|c.received|, j, c.length);
    SlotsDiffer(|c.received| + j, |c.sent| + i, c.length);
  }

  /** What either side computes from a stale index is at most the truth, and exact when both indices are current. */
  lemma StaleIndicesUnderReport(c: Channel)
    requires Inv(c)
    ensures c.writer.WTail? ==> Spaces(c.head, c.writer.tail, c.length) <= Spaces(c.head, c.tail, c.length)
    ensures c.reader.RHead? ==> Bytes(c.reader.head, c.tail, c.length) <= Bytes(c.head, c.tail, c.length)
    ensures Bytes(c.head, c.tail, c.length) == |c.sent| - |c.received|
    ensures Bytes(c.head, c.tail, c.length) + Spaces(c.head, c.tail, c.length) == c.length - 1
  {
    hide Slot, Bytes, Spaces;
    CountsAreExact(|c.sent|, |c.received|, c.length);
    if c.writer.WTail? { CountsAreExact(|c.sent|, c.writer.at, c.length); }
    if c.reader.RHead? { CountsAreExact(c.reader.at, |c.received|, c.length); }
  }

  // ----- the copies in chunks -----

  /** Copying `data` in byte by byte from the head on. */
  function Written(buffer: seq<Byte>, head: nat, data: seq<Byte>, length: Length): (r: seq<Byte>)
    requires |buffer| == length && head < length && |data| <= length
    ensures |r| == length
  {
    if data == [] then buffer
    else var n := |data| - 1; Written(buffer, head, data[..n], length)[Wrap(head + n, length) := data[n]]
  }

  /** How far slot `k` is from slot `head`, going forward. */
  function Distance(head: nat, k: nat, length: Length): nat
    requires head < length
  {
    if k >= head then k - head else k + length - head
  }

  lemma {:induction false} WrittenAt(buffer: seq<Byte>, head: nat, data: seq<Byte>, length: Length, k: nat)
    requires |buffer| == length && head < length && |data| <= length && k < length
    ensures Written(buffer, head, data, length)[k] == if Distance(head, k, length) < |data|
                                                      then data[Distance(head, k, length)] else buffer[k]
    decreases |data|
  {
    if data != [] { WrittenAt(buffer, head, data[..|data| - 1], length, k); }
  }

  function CopyAllIn(c: Channel, data: seq<Byte>): Channel
    decreases |data|
  {
    if data == [] then c
    else
      var a := CopyAllIn(c, data[..|data| - 1]);
      var s := CopyIn(data[|data| - 1]);
      if Enabled(a, s) then Next(a, s) else a
  }

  /** As many steps as there are bytes do what the copy does. */
  lemma {:induction false} CopyingIsStepping(c: Channel, data: seq<Byte>)
    requires Inv(c) && c.head < c.length && c.tail < c.length && c.writer.WSpace? && c.writer.staged == []
             && |data| <= c.writer.space <= c.length
    ensures CopyAllIn(c, data)
         == c.(buffer := Written(c.buffer, c.head, data, c.length), writer := c.writer.(staged := data))
    decreases |data|
  {
    if data != [] {
      hide Inv;
      CopyingIsStepping(c, data[..|data| - 1]);
      assert data[..|data| - 1] + [data[|data| - 1]] == data;
    } else {
      assert c.writer == c.writer.(staged := data);
    }
  }

  /** The bytes a reader finds from its tail on. */
  function ReadOut(buffer: seq<Byte>, tail: nat, count: nat, length: Length): (r: seq<Byte>)
    requires |buffer| == length && tail < length && count <= length
    ensures |r| == count
  {
    seq(count, j requires 0 <= j < count => buffer[Wrap(tail + j, length)])
  }

  function CopyAllOut(c: Channel, n: nat): Channel {
    if n == 0 then c
    else
      var a := CopyAllOut(c, n - 1);
      if Enabled(a, CopyOut) then Next(a, CopyOut) else a
  }

  /** As many steps as there are bytes do what the read does. */
  lemma {:induction false} ReadingIsStepping(c: Channel, n: nat)
    requires Inv(c) && c.head < c.length && c.tail < c.length && c.reader.RAvailable? && c.reader.got == []
             && n <= c.reader.available <= c.length
    ensures CopyAllOut(c, n) == c.(reader := c.reader.(got := ReadOut(c.buffer, c.tail, n, c.length)))
  {
    if n > 0 {
      hide Inv;
      ReadingIsStepping(c, n - 1);
      var few, all := ReadOut(c.buffer, c.tail, n - 1, c.length), ReadOut(c.buffer, c.tail, n, c.length);
      assert few + [c.buffer[Wrap(c.tail + |few|, c.length)]] == all;
    } else {
      assert c.reader == c.reader.(got := ReadOut(c.buffer, c.tail, 0, c.length));
    }
  }

  /** A send of `data` and, later, a receive of everything there is, from the first load to the store that publishes. */
  function Loaded(c: Channel): Channel
    requires Enabled(c, LoadTail)
  {
    Next(Next(c, LoadTail), LoadOwnHead)
  }

  function Looked(c: Channel): Channel
    requires Enabled(c, LoadHead)
  {
    Next(Next(c, LoadHead), LoadOwnTail)
  }

  /** Nobody in between, a producer is offered all the space there is, and publishes what it copies in. */
  lemma QuietSendIsWhole(c: Channel, data: seq<Byte>)
    requires Inv(c) && Enabled(c, LoadTail)
    ensures Loaded(c).writer == WSpace(c.length - 1 - (|c.sent| - |c.received|), [])
    ensures |data| <= Loaded(c).writer.space ==>
              && Enabled(CopyAllIn(Loaded(c), data), PublishHead)
              && Next(CopyAllIn(Loaded(c), data), PublishHead).sent == c.sent + data
              && Next(CopyAllIn(Loaded(c), data), PublishHead).received == c.received
              && Inv(Next(CopyAllIn(Loaded(c), data), PublishHead))
  {
    var a := Loaded(c);
    StepKeepsInv(c, LoadTail);
    StepKeepsInv(Next(c, LoadTail), LoadOwnHead);
    CountsAreExact(|c.sent|, |c.received|, c.length);
    if |data| <= a.writer.space {
      CopyingIsStepping(a, data);
      CopyingKeepsInv(a, data);
      StepKeepsInv(CopyAllIn(a, data), PublishHead);
    }
  }

  lemma {:induction false} CopyingKeepsInv(c: Channel, data: seq<Byte>)
    requires Inv(c)
    ensures Inv(CopyAllIn(c, data))
    decreases |data|
  {
    hide Inv, Next, Enabled;
    if data != [] {
      var few := data[..|data| - 1];
      CopyingKeepsInv(c, few);
      if Enabled(CopyAllIn(c, few), CopyIn(data[|data| - 1])) {
        StepKeepsInv(CopyAllIn(c, few), CopyIn(data[|data| - 1]));
      }
    }
  }

  lemma {:induction false} ReadingKeepsInv(c: Channel, n: nat)
    requires Inv(c)
    ensures Inv(CopyAllOut(c, n))
  {
    hide Inv, Next, Enabled;
    if n > 0 {
      ReadingKeepsInv(c, n - 1);
      if Enabled(CopyAllOut(c, n - 1), CopyOut) { StepKeepsInv(CopyAllOut(c, n - 1), CopyOut); }
    }
  }

  /** What a consumer publishes after copying out `n` bytes are the next `n` bytes sent. */
  lemma TakesNext(c: Channel, n: nat)
    requires Inv(c) && c.head < c.length && c.tail < c.length
    requires c.reader.RAvailable? && c.reader.got == [] && n <= c.reader.available <= c.length
    ensures Enabled(CopyAllOut(c, n), PublishTail)
    ensures var a := Next(CopyAllOut(c, n), PublishTail);
            && Inv(a) && a.sent == c.sent && a.received == c.sent[..|c.received| + n]
  {
    ReadingKeepsInv(c, n);
    ReadingIsStepping(c, n);
    var b := CopyAllOut(c, n);
    PublishTailKeepsInv(b);
    assert b.reader.got == c.sent[|c.received|..|c.received| + n] by { assert ReaderOk(b); }
    assert c.sent[..|c.received|] + c.sent[|c.received|..|c.received| + n] == c.sent[..|c.received| + n];
  }

  lemma SeesAll(c: Channel)
    requires Inv(c) && Enabled(c, LoadHead)
    ensures Inv(Looked(c)) && Looked(c) == c.(reader := RAvailable(|c.sent| - |c.received|, []))
    ensures |c.sent| - |c.received| <= c.length
  {
    hide Slot, Bytes;
    StepKeepsInv(c, LoadHead);
    StepKeepsInv(Next(c, LoadHead), LoadOwnTail);
    CountsAreExact(|c.sent|, |c.received|, c.length);
  }

  /** Nobody in between, a consumer is offered every unread byte, and takes exactly the next ones it copies out. */
  lemma QuietReceiveIsWhole(c: Channel, n: nat)
    requires Inv(c) && Enabled(c, LoadHead)
    ensures Looked(c).reader == RAvailable(|c.sent| - |c.received|, [])
    ensures n <= Looked(c).reader.available ==>
              && Enabled(CopyAllOut(Looked(c), n), PublishTail)
              && Next(CopyAllOut(Looked(c), n), PublishTail).sent == c.sent
              && Next(CopyAllOut(Looked(c), n), PublishTail).received == c.sent[..|c.received| + n]
              && Inv(Next(CopyAllOut(Looked(c), n), PublishTail))
  {
    SeesAll(c);
    if n <= Looked(c).reader.available {
      hide Inv, Next;
      TakesNext(Looked(c), n);
    }
  }

  /** An unread byte is farther ahead of the head than any slot the producer was told is free. */
  lemma UnreadIsBeyondSpace(c: Channel, i: nat)
    requires Inv(c) && c.writer.WSpace? && |c.received| <= i < |c.sent|
    ensures c.head < c.length && Distance(c.head, Slot(i, c.length), c.length) > c.writer.space
  {
    hide Slot, HoldsUnread;
    var n := i + c.length - |c.sent|;
    SlotAdds(|c.sent|, n, c.length);
    SlotAdds(i, c.length, c.length);
  }

  /** Scribbling on the slots the producer was told are free spoils nothing unread. */
  lemma FreeSlotsAreFree(c: Channel, buffer: seq<Byte>)
    requires Inv(c) && c.writer.WSpace? && |buffer| == c.length
    requires c.head < c.length
    requires forall k | 0 <= k < c.length && Distance(c.head, k, c.length) >= c.writer.space :: buffer[k] == c.buffer[k]
    ensures Inv(c.(buffer := buffer, writer := WIdle))
  {
    hide Slot, Distance;
    forall i | |c.received| <= i < |c.sent| ensures buffer[Slot(i, c.length)] == c.sent[i] {
      UnreadIsBeyondSpace(c, i);
    }
  }

  /** Reading back what was written, from where it was written, gives it back. */
  lemma ReadWhatWasWritten(buffer: seq<Byte>, at: nat, data: seq<Byte>, length: Length)
    requires |buffer| == length && at < length && |data| <= length
    ensures ReadOut(Written(buffer, at, data, length), at, |data|, length) == data
  {
    forall j | 0 <= j < |data| ensures ReadOut(Written(buffer, at, data, length), at, |data|, length)[j] == data[j] {
      WrittenAt(buffer, at, data, length, Wrap(at + j, length));
    }
  }

  class Storage {
    const length: Length
    const bytes: array<Byte>

    constructor (length: Length)
      ensures this.length == length && bytes.Length == length && fresh(bytes)
    {
      this.length := length;
      bytes := new Byte[length];
    }

    /** prvWriteBytesToBuffer: up to the end, then from the start. */
    method WriteBytes(data: seq<Byte>, head: nat) returns (next: nat)
      requires bytes.Length == length && head < length && 0 < |data| <= length
      modifies bytes
      ensures bytes[..] == Written(old(bytes[..]), head, data, length) && next == Wrap(head + |data|, length)
    {
      ghost var before := bytes[..];
      var first := if length - head < |data| then length - head else |data|;
      forall j | 0 <= j < first { bytes[head + j] := data[j]; }
      if |data| > first {
        forall j | 0 <= j < |data| - first { bytes[j] := data[first + j]; }
      }
      forall k | 0 <= k < length ensures bytes[k] == Written(before, head, data, length)[k] {
        WrittenAt(before, head, data, length, k);
      }
      next := head + |data|;
      if next >= length { next := next - length; }
    }

    /** prvReadBytesFromBuffer. */
    method ReadBytes(count: nat, tail: nat) returns (data: seq<Byte>, next: nat)
      requires bytes.Length == length && tail < length && 0 < count <= length
      ensures data == ReadOut(bytes[..], tail, count, length) && next == Wrap(tail + count, length)
    {
      var first := if length - tail < count then length - tail else count;
      data := bytes[tail..tail + first];
      if count > first { data := data + bytes[..count - first]; }
      forall j | 0 <= j < count ensures data[j] == ReadOut(bytes[..], tail, count, length)[j] {
        assert data[j] == bytes[Wrap(tail + j, length)] == bytes[..][Wrap(tail + j, length)];
      }
      next := tail + count;
      if next >= length { next := next - length; }
    }

    method BytesInBuffer(head: nat, tail: nat) returns (count: nat)
      requires head < length && tail < length
      ensures count == Bytes(head, tail, length)
    {
      count := length + head;
      count := count - tail;
      if count >= length { count := count - length; }
    }

    method SpacesAvailable(head: nat, tail: nat) returns (space: nat)
      requires head < length && tail < length
      ensures space == Spaces(head, tail, length)
    {
      space := length + tail;
      space := space - head;
      space := space - 1;
      if space >= length { space := space - length; }
    }
  }
}
