/**
 * A queue (queue.c) as a value: a bounded deque of items, the tasks waiting on either
 * side of it in the order in which they will be woken, and the two lock counts.  Each
 * function is one critical section.
 */
module QueueSpec {
  import opened Tasks

  type Byte = bv8
  type Item = seq<Byte>

  const UNLOCKED := -1
  const LOCKED_UNMODIFIED := 0

  datatype Queue = Queue(
    length: nat,
    items: seq<Item>,
    rxLock: int,
    txLock: int,
    senders: seq<Task>,      // xTasksWaitingToSend
    receivers: seq<Task>)    // xTasksWaitingToReceive

  datatype Position = Back | Front

  function Full(q: Queue): bool { |q.items| >= q.length }

  function Added(items: seq<Item>, item: Item, position: Position): seq<Item> {
    if position == Back then items + [item] else [item] + items
  }

  /** Those that one call of xTaskRemoveFromEventList takes off a waiting list, if any. */
  function First(ts: seq<Task>): seq<Task> { if ts == [] then [] else ts[..1] }
  function Rest(ts: seq<Task>): seq<Task> { if ts == [] then [] else ts[1..] }

  /** A send that finds room: the first receiver in line is woken. */
  function Send(q: Queue, item: Item, position: Position): Queue {
    q.(items := Added(q.items, item, position), receivers := Rest(q.receivers))
  }

  /** A receive that finds an item: the first sender in line is woken. */
  function Receive(q: Queue): Queue
    requires q.items != []
  {
    q.(items := q.items[1..], senders := Rest(q.senders))
  }

  /** A peek leaves the item, so the next receiver in line is woken for it. */
  function Peek(q: Queue): Queue { q.(receivers := Rest(q.receivers)) }

  /** An interrupt's send: on a locked queue the wake-up is only counted. */
  function SendFromISR(q: Queue, item: Item, position: Position): Queue {
    if Full(q) then q
    else if q.txLock == UNLOCKED then Send(q, item, position)
    else q.(items := Added(q.items, item, position), txLock := q.txLock + 1)
  }

  function ReceiveFromISR(q: Queue): Queue {
    if q.items == [] then q
    else if q.rxLock == UNLOCKED then Receive(q)
    else q.(items := q.items[1..], rxLock := q.rxLock + 1)
  }

  /** prvLockQueue */
  function Lock(q: Queue): Queue {
    q.(rxLock := if q.rxLock == UNLOCKED then LOCKED_UNMODIFIED else q.rxLock,
       txLock := if q.txLock == UNLOCKED then LOCKED_UNMODIFIED else q.txLock)
  }

  /** How many waiters the counted wake-ups are owed to. */
  function Owed(lock: int, waiting: seq<Task>): (n: nat)
    ensures n <= |waiting|
  {
    if lock <= LOCKED_UNMODIFIED then 0 else if lock < |waiting| then lock else |waiting|
  }

  /** The two critical sections of prvUnlockQueue. */
  function UnlockTx(q: Queue): Queue {
    q.(txLock := UNLOCKED, receivers := q.receivers[Owed(q.txLock, q.receivers)..])
  }

  function UnlockRx(q: Queue): Queue {
    q.(rxLock := UNLOCKED, senders := q.senders[Owed(q.rxLock, q.senders)..])
  }
}
