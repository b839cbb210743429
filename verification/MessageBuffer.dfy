/** Messages over a stream buffer: a length prefix and a payload, published together. */
module MessageBuffer {

  import opened Common
  import opened StreamBuffer

  type Message = seq<Byte>

  /** sbBYTES_TO_STORE_MESSAGE_LENGTH, and the values the prefix can hold. */
  const PREFIX: nat := 4
  const LENGTHS: nat := 0x1_0000_0000

  /** The prefix as the same machine writes and reads it. */
  function Encode(n: nat): (p: seq<Byte>)
    requires n < LENGTHS
    ensures |p| == PREFIX
  {
    var a, b, c := n / 256, n / 256 / 256, n / 256 / 256 / 256;
    [n % 256, a % 256, b % 256, c]
  }

  function Decode(p: seq<Byte>): nat
    requires |p| == PREFIX
  {
    p[0] as nat + 256 * (p[1] as nat) + 65536 * (p[2] as nat) + 16777216 * (p[3] as nat)
  }

  lemma DecodeEncode(n: nat)
    requires n < LENGTHS
    ensures Decode(Encode(n)) == n
  {
    var a, b, c := n / 256, n / 256 / 256, n / 256 / 256 / 256;
    assert n == 256 * a + n % 256 && a == 256 * b + a % 256 && b == 256 * c + b % 256;
  }

  predicate Sendable(m: Message) { 0 < |m| < LENGTHS }

  function Frame(m: Message): (f: seq<Byte>)
    requires Sendable(m)
    ensures |f| == PREFIX + |m|
  {
    Encode(|m|) + m
  }

  function Frames(ms: seq<Message>): seq<Byte>
    requires forall m | m in ms :: Sendable(m)
  {
    if ms == [] then [] else Frames(ms[..|ms| - 1]) + Frame(ms[|ms| - 1])
  }

  lemma FramesStep(ms: seq<Message>, k: nat)
    requires (forall m | m in ms :: Sendable(m)) && k < |ms|
    ensures Frames(ms[..k + 1]) == Frames(ms[..k]) + Frame(ms[k])
  {
    assert ms[..k + 1][..k] == ms[..k];
  }

  lemma {:induction false} FramesPrefix(ms: seq<Message>, k: nat)
    requires (forall m | m in ms :: Sendable(m)) && k <= |ms|
    ensures Frames(ms[..k]) <= Frames(ms)
    decreases |ms| - k
  {
    if k < |ms| {
      FramesStep(ms, k);
      FramesPrefix(ms, k + 1);
    } else {
      assert ms[..k] == ms;
    }
  }

  // ----- the channel, used for messages -----

  datatype Mail = Mail(c: Channel, posted: seq<Message>, delivered: seq<Message>)

  datatype MailStep =
    | Other(s: Step)            // anything but publishing
    | Post(m: Message)          // the head is published once prefix and payload are in
    | Fetch(capacity: nat)      // the tail is published once prefix and payload are out

  /** How many payload bytes prvReadMessageFromBuffer copies out. */
  function PayloadCount(available: nat, prefix: nat): nat
    requires available >= PREFIX
  {
    if prefix < available - PREFIX then prefix else available - PREFIX
  }

  predicate CanDo(mail: Mail, s: MailStep) {
    match s
    case Other(t) => Enabled(mail.c, t) && !t.PublishHead? && !t.PublishTail?
    case Post(m) => Enabled(mail.c, PublishHead) && Sendable(m) && mail.c.writer.staged == Frame(m)
    case Fetch(capacity) =>
      && Enabled(mail.c, PublishTail)
      && var r := mail.c.reader;
      && r.available > PREFIX && |r.got| >= PREFIX
      && var n := Decode(r.got[..PREFIX]);
      n <= capacity && |r.got| == PREFIX + PayloadCount(r.available, n) && PayloadCount(r.available, n) != 0
  }

  function Do(mail: Mail, s: MailStep): Mail
    requires CanDo(mail, s)
  {
    match s
    case Other(t) => mail.(c := Next(mail.c, t))
    case Post(m) => mail.(c := Next(mail.c, PublishHead), posted := mail.posted + [m])
    case Fetch(_) => mail.(c := Next(mail.c, PublishTail), delivered := mail.delivered + [mail.c.reader.got[PREFIX..]])
  }

  predicate AllSendable(ms: seq<Message>) { forall m | m in ms :: Sendable(m) }

  /** Position `at` in the sent bytes is where a posted, undelivered frame ends, or the delivered ones do. */
  ghost predicate AtBoundary(mail: Mail, at: nat)
    requires AllSendable(mail.posted)
  {
    exists k :: |mail.delivered| <= k <= |mail.posted| && |Frames(mail.posted[..k])| == at
  }

  /** Published bytes are whole frames: those posted, of which the first have been delivered. */
  ghost predicate MailOk(mail: Mail) {
    && Inv(mail.c) && AllSendable(mail.posted) && mail.delivered <= mail.posted
    && mail.c.sent == Frames(mail.posted) && mail.c.received == Frames(mail.posted[..|mail.delivered|])
    && (mail.c.reader.RHead? ==> AtBoundary(mail, mail.c.reader.at))
    && (mail.c.reader.RAvailable? ==> AtBoundary(mail, |mail.c.received| + mail.c.reader.available))
  }

  lemma PostKeepsMail(mail: Mail, m: Message)
    requires MailOk(mail) && CanDo(mail, Post(m))
    ensures MailOk(Do(mail, Post(m)))
  {
    hide Inv, Enabled;
    StepKeepsInv(mail.c, PublishHead);
    var a := Do(mail, Post(m));
    assert forall x | x in a.posted :: x in mail.posted || x == m;
    assert a.posted[..|mail.posted|] == mail.posted;
    assert forall k | 0 <= k <= |mail.posted| :: a.posted[..k] == mail.posted[..k];
  }

  lemma OtherKeepsMail(mail: Mail, s: Step)
    requires MailOk(mail) && CanDo(mail, Other(s))
    ensures MailOk(Do(mail, Other(s)))
  {
    hide Frames;
    StepKeepsInv(mail.c, s);
    assert mail.posted[..|mail.posted|] == mail.posted;
    if s.LoadOwnTail? {
      hide Bytes, Slot;
      CountsAreExact(mail.c.reader.at, |mail.c.received|, mail.c.length);
    }
  }

  lemma LongerPrefix(ms: seq<Message>, j: nat, k: nat)
    requires AllSendable(ms) && j <= k <= |ms|
    ensures Frames(ms[..j]) <= Frames(ms[..k])
  {
    hide Frame, Frames;
    FramesPrefix(ms[..k], j);
    assert ms[..k][..j] == ms[..j];
  }

  lemma WholeFrame(ms: seq<Message>, d: nat, k: nat)
    requires AllSendable(ms) && d < k <= |ms|
    ensures Frames(ms[..d]) + Frame(ms[d]) <= Frames(ms[..k]) && Frames(ms[..k]) <= Frames(ms)
  {
    hide Frame, Frames;
    FramesStep(ms, d);
    LongerPrefix(ms, d + 1, k);
    FramesPrefix(ms, k);
  }

  /** If any byte is readable, then a whole frame is: the next undelivered message. */
  lemma NextFrame(mail: Mail)
    requires MailOk(mail) && mail.c.reader.RAvailable? && mail.c.reader.available > 0
    ensures |mail.delivered| < |mail.posted|
    ensures var m := mail.posted[|mail.delivered|];
            && Sendable(m) && PREFIX + |m| <= mail.c.reader.available
            && |mail.c.received| + PREFIX + |m| <= |mail.c.sent|
            && mail.c.sent[|mail.c.received|..|mail.c.received| + PREFIX + |m|] == Frame(m)
  {
    hide Inv, Frame, Frames;
    var d := |mail.delivered|;
    var k :| d <= k <= |mail.posted| && |Frames(mail.posted[..k])| == |mail.c.received| + mail.c.reader.available;
    WholeFrame(mail.posted, d, k);
    assert mail.posted[d] in mail.posted;
  }

  /** A partial prefix is never readable: the source's assertion holds. */
  lemma NoPartialPrefix(mail: Mail)
    requires MailOk(mail) && mail.c.reader.RAvailable?
    ensures mail.c.reader.available == 0 || mail.c.reader.available > PREFIX
  {
    hide Inv;
    if mail.c.reader.available > 0 { NextFrame(mail); }
  }

  lemma GotFrame(got: seq<Byte>, f: seq<Byte>, m: Message)
    requires Sendable(m) && f == Frame(m) && PREFIX <= |got|
    requires forall i | 0 <= i < |got| && i < |f| :: got[i] == f[i]
    ensures Decode(got[..PREFIX]) == |m|
    ensures |got| == PREFIX + |m| ==> got[PREFIX..] == m
  {
    hide Decode;
    DecodeEncode(|m|);
    assert got[..PREFIX] == Encode(|m|);
    if |got| == PREFIX + |m| { assert got == f; }
  }

  /** What the consumer has copied out so far is the front of the next undelivered message's frame. */
  lemma CopiedOutIsNextMessage(mail: Mail)
    requires MailOk(mail) && mail.c.reader.RAvailable? && mail.c.reader.available > 0 && |mail.c.reader.got| >= PREFIX
    ensures |mail.delivered| < |mail.posted|
    ensures var m, got := mail.posted[|mail.delivered|], mail.c.reader.got;
            && Decode(got[..PREFIX]) == |m| && PREFIX + |m| <= mail.c.reader.available
            && (|got| == PREFIX + |m| ==> got[PREFIX..] == m)
  {
    hide RingOk, HoldsUnread, WriterOk, Decode, Frame, Frames;
    NextFrame(mail);
    var m, got := mail.posted[|mail.delivered|], mail.c.reader.got;
    GotFrame(got, mail.c.sent[|mail.c.received|..|mail.c.received| + PREFIX + |m|], m);
  }

  /** Every message fetched is the next one posted, whole. */
  lemma FetchDeliversNext(mail: Mail, capacity: nat)
    requires MailOk(mail) && CanDo(mail, Fetch(capacity))
    ensures |mail.delivered| < |mail.posted|
            && Do(mail, Fetch(capacity)).delivered == mail.delivered + [mail.posted[|mail.delivered|]]
    ensures |mail.posted[|mail.delivered|]| <= capacity && mail.c.reader.got == Frame(mail.posted[|mail.delivered|])
  {
    hide Inv, Decode, Frame, Frames;
    CopiedOutIsNextMessage(mail);
    GotWhole(mail);
  }

  lemma GotWhole(mail: Mail)
    requires MailOk(mail) && mail.c.reader.RAvailable? && mail.c.reader.available > 0
             && |mail.delivered| < |mail.posted|
    requires |mail.c.reader.got| == PREFIX + |mail.posted[|mail.delivered|]|
    ensures mail.c.reader.got == Frame(mail.posted[|mail.delivered|])
  {
    hide RingOk, HoldsUnread, WriterOk, Frame, Frames;
    NextFrame(mail);
  }

  lemma FetchKeepsMail(mail: Mail, capacity: nat)
    requires MailOk(mail) && CanDo(mail, Fetch(capacity))
    ensures MailOk(Do(mail, Fetch(capacity)))
  {
    hide Inv, Decode, Frame, Frames, Enabled;
    FetchDeliversNext(mail, capacity);
    StepKeepsInv(mail.c, PublishTail);
    FramesStep(mail.posted, |mail.delivered|);
    var d := |mail.delivered|;
    assert mail.delivered + [mail.posted[d]] == mail.posted[..d + 1];
  }

  lemma StepKeepsMail(mail: Mail, s: MailStep)
    requires MailOk(mail) && CanDo(mail, s)
    ensures MailOk(Do(mail, s))
  {
    hide MailOk, CanDo, Do;
    match s
    case Other(t) => OtherKeepsMail(mail, t);
    case Post(m) => PostKeepsMail(mail, m);
    case Fetch(capacity) => FetchKeepsMail(mail, capacity);
  }

  /** A receive buffer too small for the next message cannot fetch it, whatever else the consumer does. */
  lemma TooSmallIsRefused(mail: Mail, capacity: nat)
    requires MailOk(mail) && |mail.delivered| < |mail.posted| && capacity < |mail.posted[|mail.delivered|]|
    ensures !CanDo(mail, Fetch(capacity))
  {
    hide Inv, Decode, Frames;
    if CanDo(mail, Fetch(capacity)) { CopiedOutIsNextMessage(mail); }
  }

  ghost predicate Run(states: seq<Mail>, steps: seq<MailStep>) {
    && |states| == |steps| + 1
    && StreamBuffer.Initial(states[0].c) && states[0].posted == [] && states[0].delivered == []
    && forall i | 0 <= i < |steps| :: CanDo(states[i], steps[i]) && states[i + 1] == Do(states[i], steps[i])
  }

  /** Over every interleaving: the messages delivered are the first of those posted, each whole and unchanged. */
  lemma {:induction false} MessagesArriveInOrder(states: seq<Mail>, steps: seq<MailStep>)
    requires Run(states, steps)
    ensures MailOk(states[|steps|]) && states[|steps|].delivered <= states[|steps|].posted
    decreases |steps|
  {
    hide Do, CanDo, Inv;
    if steps == [] {
      Lossless([states[0].c], []);
    } else {
      var n := |steps| - 1;
      MessagesArriveInOrder(states[..n + 1], steps[..n]);
      StepKeepsMail(states[n], steps[n]);
    }
  }

  // ----- the code -----

  /** Writing twice, the second time from where the first ended, is writing both once. */
  lemma {:induction false} WrittenAppends(buffer: seq<Byte>, head: nat, x: seq<Byte>, y: seq<Byte>, length: Length)
    requires |buffer| == length && head < length && |x| + |y| <= length
    ensures Wrap(head + |x|, length) < length
    ensures Written(Written(buffer, head, x, length), Wrap(head + |x|, length), y, length)
         == Written(buffer, head, x + y, length)
    decreases |y|
  {
    if y == [] {
      assert x + y == x;
    } else {
      var n := |y| - 1;
      WrittenAppends(buffer, head, x, y[..n], length);
      assert (x + y)[..|x| + n] == x + y[..n];
    }
  }

  predicate Fits(data: Message, space: nat) { Sendable(data) && space >= PREFIX + |data| }

  /** prvWriteMessageToBuffer.  A message is written whole or not at all; the head returned is published only with a
      payload, so an empty message leaves its prefix unpublished in the free space.  A stream takes what fits. */
  method WriteMessage(storage: Storage, head: nat, data: seq<Byte>, space: nat, isMessageBuffer: bool)
    returns (count: nat, newHead: nat)
    requires storage.bytes.Length == storage.length && head < storage.length && space < storage.length
    modifies storage.bytes
    ensures isMessageBuffer && Fits(data, space) ==>
              && count == |data| && newHead == Wrap(head + PREFIX + |data|, storage.length)
              && storage.bytes[..] == Written(old(storage.bytes[..]), head, Frame(data), storage.length)
    ensures isMessageBuffer && !Fits(data, space) ==>
              && count == 0 && newHead == head
              && forall k | 0 <= k < storage.length && Distance(head, k, storage.length) >= space ::
                   storage.bytes[k] == old(storage.bytes[k])
    ensures !isMessageBuffer ==>
              && count == Min(|data|, space) && newHead == Wrap(head + count, storage.length)
              && storage.bytes[..] == Written(old(storage.bytes[..]), head, data[..count], storage.length)
  {
    hide Written, Encode;
    count, newHead := |data|, head;
    ghost var before := storage.bytes[..];
    if isMessageBuffer {
      if space >= PREFIX + |data| {
        if |data| >= LENGTHS { return 0, head; }
        newHead := storage.WriteBytes(Encode(|data|), head);
        forall k | 0 <= k < storage.length && Distance(head, k, storage.length) >= space
          ensures storage.bytes[k] == before[k] {
          WrittenAt(before, head, Encode(|data|), storage.length, k);
          assert storage.bytes[k] == storage.bytes[..][k];
        }
        WrittenAppends(before, head, Encode(|data|), data, storage.length);
      } else {
        count := 0;
      }
    } else {
      count := if |data| < space then |data| else space;
    }
    if count != 0 {
      newHead := storage.WriteBytes(data[..count], newHead);
      assert isMessageBuffer ==> data[..count] == data;
    } else {
      newHead := head;
      WrittenNothing(before, head, storage.length);
    }
  }

  lemma WrittenNothing(buffer: seq<Byte>, head: nat, length: Length)
    requires |buffer| == length && head < length
    ensures Written(buffer, head, [], length) == buffer
  {}

  /** What prvReadMessageFromBuffer returns for a message buffer: the payload and the new tail, or nothing and the
      old. */
  function Taken(buffer: seq<Byte>, tail: nat, capacity: nat, available: nat, length: Length): (r: (seq<Byte>, nat))
    requires |buffer| == length && tail < length && PREFIX < available < length
  {
    var n := Decode(ReadOut(buffer, tail, PREFIX, length));
    if n > capacity || PayloadCount(available, n) == 0 then ([], tail)
    else
      var at := Wrap(tail + PREFIX, length);
      (ReadOut(buffer, at, PayloadCount(available, n), length), Wrap(at + PayloadCount(available, n), length))
  }

  /** prvReadMessageFromBuffer.  A stream gives what there is. */
  method ReadMessage(storage: Storage, tail: nat, capacity: nat, available: nat, isMessageBuffer: bool)
    returns (data: seq<Byte>, newTail: nat)
    requires storage.bytes.Length == storage.length && tail < storage.length && available < storage.length
    requires isMessageBuffer ==> PREFIX < available
    ensures isMessageBuffer ==> (data, newTail) == Taken(storage.bytes[..], tail, capacity, available, storage.length)
    ensures !isMessageBuffer ==>
              && data == ReadOut(storage.bytes[..], tail, Min(capacity, available), storage.length)
              && newTail == Wrap(tail + |data|, storage.length)
  {
    hide Decode;
    data, newTail := [], tail;
    var next, wanted, left := tail, capacity, available;
    if isMessageBuffer {
      var prefix;
      prefix, next := storage.ReadBytes(PREFIX, tail);
      wanted, left := Decode(prefix), available - PREFIX;
      if wanted > capacity { return; }
    }
    var count := if wanted < left then wanted else left;
    if count != 0 { data, newTail := storage.ReadBytes(count, next); }
  }

  // ----- the code is the protocol -----

  /** Reading a prefix and then a payload is reading the frame. */
  lemma ReadInTwo(buffer: seq<Byte>, tail: nat, n: nat, length: Length)
    requires |buffer| == length && tail < length && PREFIX + n <= length
    ensures var all := ReadOut(buffer, tail, PREFIX + n, length);
            && all[..PREFIX] == ReadOut(buffer, tail, PREFIX, length)
            && Wrap(tail + PREFIX, length) < length
            && all[PREFIX..] == ReadOut(buffer, Wrap(tail + PREFIX, length), n, length)
            && Wrap(Wrap(tail + PREFIX, length) + n, length) == Wrap(tail + PREFIX + n, length)
  {
    var all, rest := ReadOut(buffer, tail, PREFIX + n, length), ReadOut(buffer, Wrap(tail + PREFIX, length), n, length);
    assert all[..PREFIX] == ReadOut(buffer, tail, PREFIX, length);
    forall j | 0 <= j < n ensures all[PREFIX..][j] == rest[j] {
      assert all[PREFIX..][j] == all[PREFIX + j] == buffer[Wrap(tail + (PREFIX + j), length)];
      assert Wrap(tail + (PREFIX + j), length) == Wrap(Wrap(tail + PREFIX, length) + j, length);
    }
  }

  /** The mail once the consumer has copied out `n` bytes. */
  function CopiedOut(mail: Mail, n: nat): Mail { mail.(c := CopyAllOut(mail.c, n)) }

  /** A receive finds the whole next message, unless the buffer it is given is too small: then it finds nothing and
      leaves the tail. */
  lemma ReceiveIsNextMessage(mail: Mail, capacity: nat)
    requires MailOk(mail) && mail.c.reader.RAvailable? && mail.c.reader.available > 0
    ensures |mail.delivered| < |mail.posted| && PREFIX < mail.c.reader.available < mail.c.length == |mail.c.buffer|
            && mail.c.tail < mail.c.length
    ensures var m := mail.posted[|mail.delivered|];
            Taken(mail.c.buffer, mail.c.tail, capacity, mail.c.reader.available, mail.c.length)
            == if capacity < |m| then ([], mail.c.tail) else (m, Wrap(mail.c.tail + PREFIX + |m|, mail.c.length))
  {
    hide Frames, Frame, Decode, ReadOut;
    NextFrame(mail);
    InRing(mail.c);
    hide MailOk, Inv;
    var c, m := mail.c, mail.posted[|mail.delivered|];
    FrameIsRead(mail);
    ReadInTwo(c.buffer, c.tail, |m|, c.length);
    GotFrame(Frame(m), Frame(m), m);
  }

  /** A receive that finds a message is a fetch: the tail it returns is the one the fetch publishes. */
  lemma ReceiveIsFetch(mail: Mail, capacity: nat)
    requires MailOk(mail) && mail.c.reader.RAvailable? && mail.c.reader.available > 0 && mail.c.reader.got == []
    requires |mail.delivered| < |mail.posted| && |mail.posted[|mail.delivered|]| <= capacity
    ensures PREFIX < mail.c.reader.available < mail.c.length == |mail.c.buffer| && mail.c.tail < mail.c.length
    ensures var r, a := Taken(mail.c.buffer, mail.c.tail, capacity, mail.c.reader.available, mail.c.length),
                        CopiedOut(mail, PREFIX + |mail.posted[|mail.delivered|]|);
            && MailOk(a) && CanDo(a, Fetch(capacity))
            && Do(a, Fetch(capacity)).c.tail == r.1 && Do(a, Fetch(capacity)).delivered == mail.delivered + [r.0]
  {
    hide Frames, Frame, Decode, Taken, ReadOut;
    NextFrame(mail);
    InRing(mail.c);
    hide MailOk, Inv;
    var m := mail.posted[|mail.delivered|];
    ReadingIsStepping(mail.c, PREFIX + |m|);
    ReceiveIsNextMessage(mail, capacity);
    FrameIsRead(mail);
    GotFrame(Frame(m), Frame(m), m);
    CopyingOutKeepsMail(mail, PREFIX + |m|);
  }

  lemma InRing(c: Channel)
    requires Inv(c) && c.reader.RAvailable?
    ensures |c.buffer| == c.length && c.head < c.length && c.tail < c.length && c.reader.available < c.length
  {}

  lemma {:induction false} CopyingOutKeepsMail(mail: Mail, n: nat)
    requires MailOk(mail) && mail.c.reader.RAvailable?
    ensures MailOk(CopiedOut(mail, n)) && CopiedOut(mail, n).c.reader.RAvailable?
    ensures CopiedOut(mail, n).c == CopyAllOut(mail.c, n) && CopiedOut(mail, n).delivered == mail.delivered
            && CopiedOut(mail, n).posted == mail.posted
  {
    hide MailOk;
    if n > 0 {
      CopyingOutKeepsMail(mail, n - 1);
      var a := CopiedOut(mail, n - 1);
      if Enabled(a.c, CopyOut) { OtherKeepsMail(a, CopyOut); }
    }
  }

  /** The bytes from the tail on are the next frame's. */
  lemma FrameIsRead(mail: Mail)
    requires MailOk(mail) && mail.c.reader.RAvailable? && mail.c.reader.available > 0
             && |mail.delivered| < |mail.posted|
    requires var n := PREFIX + |mail.posted[|mail.delivered|]|;
             n <= mail.c.reader.available && |mail.c.buffer| == mail.c.length && mail.c.tail < mail.c.length
             && n <= mail.c.length
    ensures var m := mail.posted[|mail.delivered|];
            Sendable(m) && ReadOut(mail.c.buffer, mail.c.tail, PREFIX + |m|, mail.c.length) == Frame(m)
  {
    hide Frames, Frame, Slot;
    NextFrame(mail);
    var c, m := mail.c, mail.posted[|mail.delivered|];
    var r := |c.received|;
    assert c.sent[r..r + PREFIX + |m|] == Frame(m);
    forall j | 0 <= j < PREFIX + |m| ensures ReadOut(c.buffer, c.tail, PREFIX + |m|, c.length)[j] == Frame(m)[j] {
      SlotAdds(r, j, c.length);
    }
  }

  /** A send is a post if the message fits: the head it returns and the bytes it writes are those the post publishes. */
  lemma SendIsPost(mail: Mail, data: Message)
    requires MailOk(mail) && mail.c.writer.WSpace? && mail.c.writer.staged == [] && Fits(data, mail.c.writer.space)
    ensures |mail.c.buffer| == mail.c.length && mail.c.head < mail.c.length && PREFIX + |data| < mail.c.length
    ensures var a := mail.(c := CopyAllIn(mail.c, Frame(data)));
            && MailOk(a) && CanDo(a, Post(data))
            && Do(a, Post(data)).c.buffer == Written(mail.c.buffer, mail.c.head, Frame(data), mail.c.length)
            && Do(a, Post(data)).c.head == Wrap(mail.c.head + PREFIX + |data|, mail.c.length)
            && Do(a, Post(data)).posted == mail.posted + [data]
  {
    hide Frames, Frame;
    SpaceInRing(mail.c);
    hide Inv;
    CopyingIsStepping(mail.c, Frame(data));
    CopyingInKeepsMail(mail, Frame(data));
  }

  lemma SpaceInRing(c: Channel)
    requires Inv(c) && c.writer.WSpace?
    ensures |c.buffer| == c.length && c.head < c.length && c.tail < c.length && c.writer.space < c.length
  {}

  lemma {:induction false} CopyingInKeepsMail(mail: Mail, data: seq<Byte>)
    requires MailOk(mail) && mail.c.writer.WSpace?
    ensures var a := mail.(c := CopyAllIn(mail.c, data)); MailOk(a) && a.c.writer.WSpace?
    decreases |data|
  {
    hide MailOk;
    if data != [] {
      var n := |data| - 1;
      CopyingInKeepsMail(mail, data[..n]);
      var a := mail.(c := CopyAllIn(mail.c, data[..n]));
      if Enabled(a.c, CopyIn(data[n])) { OtherKeepsMail(a, CopyIn(data[n])); }
    }
  }

  /** A refused send may leave a prefix in the free space; the stored messages are unharmed. */
  lemma RefusedSendKeepsMail(mail: Mail, buffer: seq<Byte>)
    requires MailOk(mail) && mail.c.writer.WSpace? && |buffer| == mail.c.length && mail.c.head < mail.c.length
    requires forall k | 0 <= k < mail.c.length && Distance(mail.c.head, k, mail.c.length) >= mail.c.writer.space ::
               buffer[k] == mail.c.buffer[k]
    ensures MailOk(mail.(c := mail.c.(buffer := buffer, writer := WIdle)))
  {
    hide Frames, Slot, Distance;
    FreeSlotsAreFree(mail.c, buffer);
    hide RingOk, HoldsUnread, WriterOk;
  }
}
