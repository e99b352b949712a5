/**
 * The queue structure in place: items of a fixed size in a byte buffer, a write pointer
 * to the next free slot, a read pointer to the slot read last, both wrapping at the end
 * of the buffer.
 */
module RingBuffer {
  import opened Arith
  import opened QueueSpec
  import opened Tasks

  class QueueStorage {
    const length: nat
    const itemSize: nat
    const buffer: array<Byte>     // one byte longer than the items need
    var writeTo: nat              // pcWriteTo - pcHead
    var readFrom: int             // pcReadFrom - pcHead
    var messagesWaiting: nat
    var rxLock: int
    var txLock: int
    var waitingToSend: seq<Task>
    var waitingToReceive: seq<Task>
    ghost var first: nat          // slot of the oldest item

    /** Slot `i` places on from `from`, going round at the end. */
    function Slot(from: nat, i: nat): nat {
      if from + i < length then from + i else from + i - length
    }

    ghost predicate Valid()
      reads this
    {
      && 0 < length && first < length && messagesWaiting <= length
      && buffer.Length == length * itemSize + 1
      && writeTo == Slot(first, messagesWaiting) * itemSize
      && readFrom == Slot(first, length - 1) * itemSize
    }

    lemma SlotFits(s: nat)
      requires s < length
      ensures s * itemSize + itemSize <= length * itemSize
    {
      Apart(s, length, itemSize);
    }

    /** The bytes of slot `s`. */
    ghost function Cell(s: nat): (item: Item)
      requires s < length && buffer.Length == length * itemSize + 1
      reads buffer
      ensures |item| == itemSize
    {
      SlotFits(s);
      buffer[s * itemSize..s * itemSize + itemSize]
    }

    /** The items from the oldest to the newest. */
    ghost function Contents(): (items: seq<Item>)
      requires Valid()
      reads this, buffer
      ensures |items| == messagesWaiting
    {
      seq(messagesWaiting, i requires 0 <= i < messagesWaiting && Valid() reads this, buffer => Cell(Slot(first, i)))
    }

    ghost function View(): Queue
      requires Valid()
      reads this, buffer
    {
      Queue(length, Contents(), rxLock, txLock, waitingToSend, waitingToReceive)
    }

    /** xQueueCreate */
    constructor (length: nat, itemSize: nat)
      requires length > 0
      ensures Valid() && fresh(buffer) && this.itemSize == itemSize
      ensures View() == Queue(length, [], UNLOCKED, UNLOCKED, [], [])
    {
      this.length, this.itemSize := length, itemSize;
      buffer := new Byte[length * itemSize + 1];
      writeTo, readFrom := 0, (length - 1) * itemSize;
      messagesWaiting, first := 0, 0;
      rxLock, txLock := UNLOCKED, UNLOCKED;
      waitingToSend, waitingToReceive := [], [];
    }

    /** memcpy into the slot that starts at `offset`. */
    method Store(offset: nat, item: Item, ghost s: nat)
      requires s < length && offset == s * itemSize && |item| == itemSize
      requires buffer.Length == length * itemSize + 1
      modifies buffer
      ensures Cell(s) == item
      ensures forall r :: 0 <= r < length && r != s ==> Cell(r) == old(Cell(r))
    {
      SlotFits(s);
      for i := 0 to itemSize
        invariant forall j :: 0 <= j < i ==> buffer[offset + j] == item[j]
        invariant forall j :: 0 <= j < buffer.Length && !(offset <= j < offset + itemSize) ==> buffer[j] == old(buffer[j])
      {
        buffer[offset + i] := item[i];
      }
      forall r | 0 <= r < length && r != s
        ensures Cell(r) == old(Cell(r))
      {
        SlotFits(r);
        if r < s { Apart(r, s, itemSize); } else { Apart(s, r, itemSize); }
      }
    }

    /** Moving a pointer one slot on, as the code does it. */
    lemma NextSlot(s: nat)
      requires s < length
      ensures itemSize > 0 ==> (s * itemSize + itemSize >= length * itemSize <==> s + 1 == length)
      ensures Slot(s, 1) * itemSize == if s + 1 == length then 0 else s * itemSize + itemSize
    {
      Distribute(s, 1, itemSize);
      if s + 1 < length { Apart(s + 1, length, itemSize); }
    }

    /** Moving a pointer one slot back. */
    lemma PreviousSlot(s: nat)
      requires s < length
      ensures itemSize > 0 ==> (s * itemSize - itemSize < 0 <==> s == 0)
      ensures Slot(s, length - 1) * itemSize == if s == 0 then length * itemSize - itemSize else s * itemSize - itemSize
    {
      Distribute(length - 1, 1, itemSize);
      if s > 0 {
        Distribute(s - 1, 1, itemSize);
      }
    }

    /** The bytes go to the write pointer, which moves one slot on. */
    method WriteBack(item: Item)
      requires Valid() && messagesWaiting < length && |item| == itemSize && itemSize > 0
      modifies this`writeTo, this`messagesWaiting, buffer
      ensures Valid()
      ensures Contents() == old(Contents()) + [item]
    {
      ghost var was, s := Contents(), Slot(first, messagesWaiting);
      Store(writeTo, item, s);
      NextSlot(s);
      writeTo := writeTo + itemSize;
      if writeTo >= length * itemSize {
        writeTo := 0;
      }
      messagesWaiting := messagesWaiting + 1;
      AddedAt(was, item, Back);
    }

    /** The bytes go to the read pointer, which moves one slot back. */
    method WriteFront(item: Item)
      requires Valid() && messagesWaiting < length && |item| == itemSize && itemSize > 0
      modifies this`readFrom, this`messagesWaiting, this`first, buffer
      ensures Valid()
      ensures Contents() == [item] + old(Contents())
    {
      ghost var was, s := Contents(), Slot(first, length - 1);
      Store(readFrom, item, s);
      PreviousSlot(s);
      readFrom := readFrom - itemSize;
      if readFrom < 0 {
        readFrom := length * itemSize - itemSize;
      }
      messagesWaiting := messagesWaiting + 1;
      first := s;
      AddedAt(was, item, Front);
    }

    /** prvCopyDataToQueue */
    method CopyDataToQueue(item: Item, position: Position)
      requires Valid() && messagesWaiting < length && |item| == itemSize
      modifies this`writeTo, this`readFrom, this`messagesWaiting, this`first, buffer
      ensures Valid()
      ensures Contents() == Added(old(Contents()), item, position)
    {
      if itemSize == 0 {
        ghost var was := Contents();
        messagesWaiting := messagesWaiting + 1;
        EmptyItems(was, item, position);
      } else if position == Back {
        WriteBack(item);
      } else {
        WriteFront(item);
      }
    }

    /** With no bytes to an item all items are alike. */
    lemma EmptyItems(was: seq<Item>, item: Item, position: Position)
      requires Valid() && itemSize == 0 && item == []
      requires |was| + 1 == messagesWaiting && forall i :: 0 <= i < |was| ==> was[i] == []
      ensures Contents() == Added(was, item, position)
    {
    }

    lemma AddedAt(was: seq<Item>, item: Item, position: Position)
      requires Valid() && |was| + 1 == messagesWaiting
      requires position == Back ==> Cell(Slot(first, |was|)) == item
      requires position == Back ==> forall i :: 0 <= i < |was| ==> Cell(Slot(first, i)) == was[i]
      requires position == Front ==> Cell(first) == item
      requires position == Front ==> forall i :: 0 <= i < |was| ==> Cell(Slot(first, i + 1)) == was[i]
      ensures Contents() == Added(was, item, position)
    {
      var now := Contents();
      forall i | 0 <= i < messagesWaiting
        ensures now[i] == Added(was, item, position)[i]
      {
        if position == Front && i > 0 { assert Cell(Slot(first, (i - 1) + 1)) == was[i - 1]; }
      }
    }

    /** prvCopyDataFromQueue: the read pointer moves on first, then the bytes are copied out. */
    method CopyDataFromQueue() returns (item: Item)
      requires Valid() && messagesWaiting > 0
      modifies this`readFrom
      ensures item == old(Contents())[0] && item == Cell(first)
      ensures readFrom == first * itemSize
    {
      ghost var s := Slot(first, length - 1);
      NextSlot(s);
      SlotFits(first);
      assert old(Contents())[0] == Cell(Slot(first, 0));
      readFrom := readFrom + itemSize;
      if readFrom >= length * itemSize {
        readFrom := 0;
      }
      item := buffer[readFrom..readFrom + itemSize];
    }

    // ---- the critical sections ----

    /** The part of xQueueGenericSend that tries to send.  `woken` is the task that
        xTaskRemoveFromEventList takes off the waiting list, if there is one. */
    method TrySend(item: Item, position: Position) returns (ok: bool, woken: seq<Task>)
      requires Valid() && |item| == itemSize
      modifies this`writeTo, this`readFrom, this`messagesWaiting, this`first, this`waitingToReceive, buffer
      ensures Valid() && ok == !Full(old(View()))
      ensures View() == if ok then Send(old(View()), item, position) else old(View())
      ensures woken == if ok then First(old(waitingToReceive)) else []
    {
      ok, woken := false, [];
      if messagesWaiting < length {
        CopyDataToQueue(item, position);
        woken := WakeReceiver();
        ok := true;
      }
    }

    method WakeReceiver() returns (woken: seq<Task>)
      requires Valid()
      modifies this`waitingToReceive
      ensures Valid() && woken == First(old(waitingToReceive)) && waitingToReceive == Rest(old(waitingToReceive))
      ensures Contents() == old(Contents())
    {
      woken := [];
      if waitingToReceive != [] {
        woken := [waitingToReceive[0]];
        waitingToReceive := waitingToReceive[1..];
      }
    }

    method WakeSender() returns (woken: seq<Task>)
      requires Valid()
      modifies this`waitingToSend
      ensures Valid() && woken == First(old(waitingToSend)) && waitingToSend == Rest(old(waitingToSend))
      ensures Contents() == old(Contents())
    {
      woken := [];
      if waitingToSend != [] {
        woken := [waitingToSend[0]];
        waitingToSend := waitingToSend[1..];
      }
    }

    /** Taking the oldest item out. */
    method Extract() returns (item: Item)
      requires Valid() && messagesWaiting > 0
      modifies this`readFrom, this`messagesWaiting, this`first
      ensures Valid() && item == old(Contents())[0]
      ensures Contents() == old(Contents())[1..]
    {
      ghost var was := Contents();
      item := CopyDataFromQueue();
      messagesWaiting := messagesWaiting - 1;
      first := Slot(first, 1);
      assert Slot(first, length - 1) == old(first);
      assert Slot(first, messagesWaiting) == Slot(old(first), old(messagesWaiting));
      forall i | 0 <= i < messagesWaiting
        ensures Contents()[i] == was[i + 1]
      {
        assert Slot(first, i) == Slot(old(first), i + 1);
      }
    }

    /** The part of xQueueGenericReceive that tries to receive or to peek. */
    method TryReceive(justPeeking: bool) returns (ok: bool, item: Item, woken: seq<Task>)
      requires Valid()
      modifies this`readFrom, this`messagesWaiting, this`first, this`waitingToSend, this`waitingToReceive
      ensures Valid() && ok == (old(View()).items != [])
      ensures ok ==> item == old(View()).items[0]
      ensures !ok ==> View() == old(View()) && woken == []
      ensures ok && !justPeeking ==> View() == Receive(old(View())) && woken == First(old(waitingToSend))
      ensures ok && justPeeking ==> View() == Peek(old(View())) && woken == First(old(waitingToReceive))
    {
      ok, item, woken := false, [], [];
      if messagesWaiting > 0 {
        if !justPeeking {
          item := Extract();
          woken := WakeSender();
        } else {
          var originalReadPosition := readFrom;
          item := CopyDataFromQueue();
          readFrom := originalReadPosition;
          woken := WakeReceiver();
        }
        ok := true;
      }
    }

    method SendFromInterrupt(item: Item, position: Position) returns (ok: bool, woken: seq<Task>)
      requires Valid() && |item| == itemSize
      modifies this`writeTo, this`readFrom, this`messagesWaiting, this`first, this`waitingToReceive, this`txLock, buffer
      ensures Valid() && ok == !Full(old(View()))
      ensures View() == SendFromISR(old(View()), item, position)
      ensures woken == if ok && old(txLock) == UNLOCKED then First(old(waitingToReceive)) else []
    {
      ok, woken := false, [];
      if messagesWaiting < length {
        CopyDataToQueue(item, position);
        if txLock == UNLOCKED {
          woken := WakeReceiver();
        } else {
          txLock := txLock + 1;
        }
        ok := true;
      }
    }

    method ReceiveFromInterrupt() returns (ok: bool, item: Item, woken: seq<Task>)
      requires Valid()
      modifies this`readFrom, this`messagesWaiting, this`first, this`waitingToSend, this`rxLock
      ensures Valid() && ok == (old(View()).items != [])
      ensures View() == ReceiveFromISR(old(View()))
      ensures ok ==> item == old(View()).items[0]
      ensures woken == if ok && old(rxLock) == UNLOCKED then First(old(waitingToSend)) else []
    {
      ok, item, woken := false, [], [];
      if messagesWaiting > 0 {
        item := Extract();
        if rxLock == UNLOCKED {
          woken := WakeSender();
        } else {
          rxLock := rxLock + 1;
        }
        ok := true;
      }
    }

    /** prvLockQueue */
    method LockQueue()
      requires Valid()
      modifies this`rxLock, this`txLock
      ensures Valid() && View() == Lock(old(View()))
    {
      if rxLock == UNLOCKED { rxLock := LOCKED_UNMODIFIED; }
      if txLock == UNLOCKED { txLock := LOCKED_UNMODIFIED; }
    }

    /** prvUnlockQueue: two critical sections, each a loop over the counted wake-ups. */
    method UnlockQueueTx() returns (woken: seq<Task>)
      requires Valid()
      modifies this`txLock, this`waitingToReceive
      ensures Valid() && View() == UnlockTx(old(View()))
      ensures woken == old(waitingToReceive[..Owed(txLock, waitingToReceive)])
      ensures |woken| == if old(txLock) <= 0 then 0 else if old(txLock) < |old(waitingToReceive)| then old(txLock) else |old(waitingToReceive)|
      ensures old(waitingToReceive) == woken + waitingToReceive && txLock == -1
    {
      woken := [];
      ghost var n := 0;
      while txLock > LOCKED_UNMODIFIED
        invariant Valid() && Contents() == old(Contents())
        invariant n <= Owed(old(txLock), old(waitingToReceive)) && txLock == old(txLock) - n
        invariant woken == old(waitingToReceive)[..n] && waitingToReceive == old(waitingToReceive)[n..]
      {
        if waitingToReceive == [] { break; }
        var one := WakeReceiver();
        woken := woken + one;
        txLock := txLock - 1;
        n := n + 1;
      }
      txLock := UNLOCKED;
    }

    method UnlockQueueRx() returns (woken: seq<Task>)
      requires Valid()
      modifies this`rxLock, this`waitingToSend
      ensures Valid() && View() == UnlockRx(old(View()))
      ensures woken == old(waitingToSend[..Owed(rxLock, waitingToSend)])
      ensures |woken| == if old(rxLock) <= 0 then 0 else if old(rxLock) < |old(waitingToSend)| then old(rxLock) else |old(waitingToSend)|
      ensures old(waitingToSend) == woken + waitingToSend && rxLock == -1
    {
      woken := [];
      ghost var n := 0;
      while rxLock > LOCKED_UNMODIFIED
        invariant Valid() && Contents() == old(Contents())
        invariant n <= Owed(old(rxLock), old(waitingToSend)) && rxLock == old(rxLock) - n
        invariant woken == old(waitingToSend)[..n] && waitingToSend == old(waitingToSend)[n..]
      {
        if waitingToSend == [] { break; }
        var one := WakeSender();
        woken := woken + one;
        rxLock := rxLock - 1;
        n := n + 1;
      }
      rxLock := UNLOCKED;
    }
  }
}
