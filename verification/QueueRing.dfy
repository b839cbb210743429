/** The storage ring of queue.rs: items of a fixed size copied in and out of a byte buffer by two moving offsets,
    against the bounded sequence of items the queue stands for. */
module QueueRing {

  import opened Common
  import Modular

  datatype Position = Back | Front | Overwrite

  // ----- the buffer as slots -----

  lemma SlotFits(k: nat, n: nat, size: nat)
    requires k < n
    ensures k * size + size <= n * size
  {
    var more := n - k - 1;
    assert more * size >= 0;
    assert n * size == (k + 1 + more) * size == k * size + size + more * size;
  }

  function Slot(bytes: seq<Byte>, k: nat, n: nat, size: nat): (item: seq<Byte>)
    requires k < n && |bytes| == n * size
    ensures |item| == size
  {
    SlotFits(k, n, size);
    bytes[k * size..k * size + size]
  }

  /** Overwriting the bytes of one slot changes that slot and no other. */
  lemma WriteSlot(before: seq<Byte>, after: seq<Byte>, k: nat, n: nat, size: nat, item: seq<Byte>, j: nat)
    requires k < n && j < n && |before| == n * size == |after| && |item| == size
    requires k * size + size <= n * size && after == before[..k * size] + item + before[k * size + size..]
    ensures Slot(after, j, n, size) == if j == k then item else Slot(before, j, n, size)
  {
    SlotFits(j, n, size);
    if j < k { SlotFits(j, k, size); } else if k < j { SlotFits(k, j, size); }
  }

  // ----- the ring over slots -----

  /** Positions run up to twice around the ring. */
  function Wrap(x: nat, n: nat): (k: nat)
    requires 0 < n && x <= 2 * n
    ensures k < n
  {
    if x < n then x else if x < 2 * n then x - n else 0
  }

  lemma WrapIsModulo(x: nat, n: nat)
    requires 0 < n && x <= 2 * n
    ensures Wrap(x, n) == x % n
  {
    Modular.DivModUnique(x, n, if x < n then 0 else if x < 2 * n then 1 else 2, Wrap(x, n));
  }

  function Next(k: nat, n: nat): (r: nat)
    requires k < n
    ensures r < n
  {
    if k + 1 == n then 0 else k + 1
  }

  function Previous(k: nat, n: nat): (r: nat)
    requires k < n
    ensures r < n && Next(r, n) == k
  {
    if k == 0 then n - 1 else k - 1
  }

  /** `count` items from the slot after `read` on. */
  function Items(bytes: seq<Byte>, read: nat, count: nat, n: nat, size: nat): (items: seq<seq<Byte>>)
    requires read < n && count <= n && |bytes| == n * size
    ensures |items| == count
  {
    seq(count, i requires 0 <= i < count => Slot(bytes, Wrap(read + 1 + i, n), n, size))
  }

  lemma BackAppends(before: seq<Byte>, after: seq<Byte>, read: nat, count: nat, n: nat, size: nat, item: seq<Byte>)
    requires read < n && count < n && |before| == n * size == |after| && |item| == size
    requires var k := Wrap(read + 1 + count, n);
             k * size + size <= n * size && after == before[..k * size] + item + before[k * size + size..]
    ensures Items(after, read, count + 1, n, size) == Items(before, read, count, n, size) + [item]
  {
    hide Slot;
    var k := Wrap(read + 1 + count, n);
    forall i | 0 <= i < count + 1
      ensures Items(after, read, count + 1, n, size)[i] == (Items(before, read, count, n, size) + [item])[i]
    {
      WriteSlot(before, after, k, n, size, item, Wrap(read + 1 + i, n));
    }
  }

  lemma FrontPrepends(before: seq<Byte>, after: seq<Byte>, read: nat, count: nat, n: nat, size: nat, item: seq<Byte>)
    requires read < n && count < n && |before| == n * size == |after| && |item| == size
    requires read * size + size <= n * size && after == before[..read * size] + item + before[read * size + size..]
    ensures Items(after, Previous(read, n), count + 1, n, size) == [item] + Items(before, read, count, n, size)
  {
    hide Slot;
    forall i | 0 <= i < count + 1
      ensures Items(after, Previous(read, n), count + 1, n, size)[i]
           == ([item] + Items(before, read, count, n, size))[i]
    {
      WriteSlot(before, after, read, n, size, item, Wrap(Previous(read, n) + 1 + i, n));
      if i > 0 { assert Wrap(Previous(read, n) + 1 + i, n) == Wrap(read + 1 + (i - 1), n) != read; }
    }
  }

  lemma HeadLeaves(bytes: seq<Byte>, read: nat, count: nat, n: nat, size: nat)
    requires read < n && 0 < count <= n && |bytes| == n * size
    ensures Items(bytes, read, count, n, size)
         == [Slot(bytes, Next(read, n), n, size)] + Items(bytes, Next(read, n), count - 1, n, size)
  {
    hide Slot;
    forall i | 0 < i < count
      ensures Items(bytes, read, count, n, size)[i] == Items(bytes, Next(read, n), count - 1, n, size)[i - 1]
    {
      assert Wrap(read + 1 + i, n) == Wrap(Next(read, n) + 1 + (i - 1), n);
    }
    var items, rest := Items(bytes, read, count, n, size), Items(bytes, Next(read, n), count - 1, n, size);
    var head := Slot(bytes, Next(read, n), n, size);
    assert items[0] == head by { assert Wrap(read + 1 + 0, n) == Next(read, n); }
    assert forall i | 0 < i < count :: items[i] == rest[i - 1];
    assert items == [head] + rest;
  }

  // ----- the bounded sequence -----

  /** What a send does to the sequence of items: refused when full, unless it overwrites. */
  function Sent(items: seq<seq<Byte>>, item: seq<Byte>, position: Position): seq<seq<Byte>> {
    match position
    case Back => items + [item]
    case Front => [item] + items
    case Overwrite => [item]
  }

  predicate Accepts(items: seq<seq<Byte>>, length: nat, position: Position) {
    |items| < length || position == Overwrite
  }

  /** The ring fields of xQUEUE.  Offsets are relative to pcHead; slots are what the offsets stand for. */
  class Queue {
    const length: nat
    const itemSize: nat
    const storage: array<Byte>
    var writeTo: nat
    var readFrom: nat
    var messagesWaiting: nat
    ghost var writeSlot: nat
    ghost var readSlot: nat

    ghost predicate Valid()
      reads this
    {
      && 0 < length && storage.Length == length * itemSize
      && (itemSize > 0 ==>
            && messagesWaiting <= length
            && readSlot < length && readFrom == readSlot * itemSize
            && writeSlot < length && writeTo == writeSlot * itemSize
            && writeSlot == Wrap(readSlot + 1 + messagesWaiting, length))
    }

    /** Semaphores store no bytes: their items are empty and only counted. */
    ghost function Contents(): (items: seq<seq<Byte>>)
      requires Valid()
      reads this, storage
      ensures |items| == messagesWaiting
    {
      if itemSize == 0 then seq(messagesWaiting, _ => [])
      else Items(storage[..], readSlot, messagesWaiting, length, itemSize)
    }

    /** The ring equation of the source, over slots and with its own remainder operator. */
    lemma WriteFollowsItems()
      requires Valid() && itemSize > 0
      ensures writeSlot == (readSlot + 1 + messagesWaiting) % length
    {
      WrapIsModulo(readSlot + 1 + messagesWaiting, length);
    }

    constructor (length: nat, itemSize: nat)
      requires length > 0
      ensures Valid() && Contents() == [] && this.length == length && this.itemSize == itemSize && fresh(storage)
    {
      this.length := length;
      this.itemSize := itemSize;
      storage := new Byte[length * itemSize];
      messagesWaiting := 0;
      writeTo := 0;
      readFrom := (length - 1) * itemSize;
      writeSlot := 0;
      readSlot := length - 1;
    }

    method Reset()
      requires Valid()
      modifies this
      ensures Valid() && Contents() == []
    {
      messagesWaiting := 0;
      writeTo := 0;
      readFrom := (length - 1) * itemSize;
      writeSlot := 0;
      readSlot := length - 1;
    }

    method CopyItemTo(offset: nat, item: seq<Byte>)
      requires |item| == itemSize && offset + itemSize <= storage.Length
      modifies storage
      ensures storage[..] == old(storage[..offset]) + item + old(storage[offset + itemSize..])
    {
      forall i | 0 <= i < itemSize { storage[offset + i] := item[i]; }
    }

    method CopyToBack(item: seq<Byte>)
      requires Valid() && itemSize > 0 && |item| == itemSize && messagesWaiting < length
      modifies this`writeTo, this`messagesWaiting, this`writeSlot, storage
      ensures Valid() && Contents() == old(Contents()) + [item]
    {
      hide Items;
      SlotFits(writeSlot, length, itemSize);
      ghost var before := storage[..];
      CopyItemTo(writeTo, item);
      BackAppends(before, storage[..], readSlot, messagesWaiting, length, itemSize, item);
      writeTo := writeTo + itemSize;
      NextOffset(writeSlot, length, itemSize);
      if writeTo >= length * itemSize { writeTo := 0; }
      writeSlot := Next(writeSlot, length);
      messagesWaiting := messagesWaiting + 1;
    }

    /** The read offset moves back one item, from the first to the last. */
    method StepBack()
      requires itemSize > 0 && readSlot < length && readFrom == readSlot * itemSize
      modifies this`readFrom, this`readSlot
      ensures readSlot == Previous(old(readSlot), length) && readFrom == readSlot * itemSize
    {
      NextOffset(Previous(readSlot, length), length, itemSize);
      if readFrom == 0 { readFrom := length * itemSize; }
      readFrom := readFrom - itemSize;
      readSlot := Previous(readSlot, length);
    }

    method CopyToFront(item: seq<Byte>, overwrite: bool)
      requires Valid() && itemSize > 0 && |item| == itemSize
      requires if overwrite then length == 1 else messagesWaiting < length
      modifies this`readFrom, this`messagesWaiting, this`readSlot, storage
      ensures Valid() && Contents() == Sent(old(Contents()), item, if overwrite then Overwrite else Front)
    {
      hide Items;
      SlotFits(readSlot, length, itemSize);
      ghost var before := storage[..];
      CopyItemTo(readFrom, item);
      FrontPrepends(before, storage[..], readSlot, if overwrite then 0 else messagesWaiting, length, itemSize, item);
      StepBack();
      if overwrite && messagesWaiting > 0 { messagesWaiting := messagesWaiting - 1; }
      messagesWaiting := messagesWaiting + 1;
    }

    /** The data half of xQueueGenericSend and of its interrupt form: refused exactly when full and not overwriting.
        A queue without item storage has nothing to overwrite and counts one more even when full, the one way to
        exceed its length. */
    method Send(item: seq<Byte>, position: Position) returns (ok: bool)
      requires Valid() && |item| == itemSize && (position == Overwrite ==> length == 1)
      modifies this, storage
      ensures Valid() && ok == Accepts(old(Contents()), length, position)
      ensures ok ==>
                Contents() == if itemSize == 0 then old(Contents()) + [[]] else Sent(old(Contents()), item, position)
      ensures !ok ==> Contents() == old(Contents())
      ensures old(messagesWaiting) <= length ==>
                (messagesWaiting > length <==> itemSize == 0 && position == Overwrite && old(messagesWaiting) == length)
    {
      ok := messagesWaiting < length || position == Overwrite;
      if !ok { return; }
      if itemSize == 0 {
        messagesWaiting := messagesWaiting + 1;
      } else if position == Back {
        CopyToBack(item);
      } else {
        CopyToFront(item, position == Overwrite);
      }
    }

    /** prvCopyDataFromQueue: advances the read offset and copies the item found there. */
    method CopyFrom() returns (item: seq<Byte>)
      requires Valid() && messagesWaiting > 0
      modifies this`readFrom, this`readSlot
      ensures item == old(Contents())[0]
      ensures itemSize > 0 ==> readSlot == Next(old(readSlot), length) && readFrom == readSlot * itemSize
    {
      hide Items, Wrap;
      item := [];
      if itemSize != 0 {
        HeadLeaves(storage[..], readSlot, messagesWaiting, length, itemSize);
        NextOffset(readSlot, length, itemSize);
        SlotFits(Next(readSlot, length), length, itemSize);
        readFrom := readFrom + itemSize;
        if readFrom >= length * itemSize { readFrom := 0; }
        readSlot := Next(readSlot, length);
        item := storage[readFrom..readFrom + itemSize];
      }
    }

    /** The data half of xQueueReceive. */
    method Receive() returns (item: Option<seq<Byte>>)
      requires Valid()
      modifies this
      ensures Valid()
      ensures if old(Contents()) == [] then item == None && Contents() == []
              else item == Some(old(Contents())[0]) && Contents() == old(Contents())[1..]
    {
      hide Items;
      if messagesWaiting == 0 { return None; }
      if itemSize > 0 { HeadLeaves(storage[..], readSlot, messagesWaiting, length, itemSize); }
      var head := CopyFrom();
      messagesWaiting := messagesWaiting - 1;
      return Some(head);
    }

    /** The data half of xQueuePeek: the read offset is put back. */
    method Peek() returns (item: Option<seq<Byte>>)
      requires Valid()
      modifies this`readFrom, this`readSlot
      ensures Valid() && Contents() == old(Contents())
      ensures item == if Contents() == [] then None else Some(Contents()[0])
    {
      if messagesWaiting == 0 { return None; }
      var original := readFrom;
      ghost var originalSlot := readSlot;
      var head := CopyFrom();
      readFrom := original;
      readSlot := originalSlot;
      return Some(head);
    }
  }

  /** A one-slot queue whose items have no bytes: a second overwriting send makes it count two. */
  method OverwriteTwice() returns (q: Queue)
    ensures q.Valid() && q.length == 1 && q.itemSize == 0 && q.messagesWaiting == 2
  {
    q := new Queue(1, 0);
    var first := q.Send([], Overwrite);
    var second := q.Send([], Overwrite);
  }

  lemma NextOffset(k: nat, n: nat, size: nat)
    requires k < n && 0 < size
    ensures Next(k, n) * size == (if k * size + size >= n * size then 0 else k * size + size)
  {
    SlotFits(k, n, size);
    if k + 1 < n { SlotFits(k + 1, n, size); }
  }
}
