/**
 * The queue under tasks and interrupts in any interleaving (queue.c): a wake-up is never
 * lost.  One step is one critical section.  A task that finds the queue full or empty
 * suspends the scheduler, locks the queue, looks again, may put itself on a waiting list,
 * unlocks each side and resumes; interrupts may come in between any two of these steps.
 */
module QueueProtocol {
  import opened Seqs
  import opened QueueSpec
  import opened Tasks

  datatype Side = Sending | Receiving

  /** How far the task is that has suspended the scheduler to block on the queue. */
  datatype Stage = Entered | Locked | Certain | Unlocking | HalfUnlocked | Unlocked

  datatype Section = Free | In(task: Task, side: Side, stage: Stage)

  datatype World = World(
    q: Queue,
    section: Section,
    refused: set<Task>,         // their last attempt failed and they are going to block
    wokenReceivers: set<Task>,  // taken off the waiting list and not yet back at the queue
    wokenSenders: set<Task>,
    sent: seq<Item>,
    received: seq<Item>)

  datatype Step =
    | TrySend(task: Task, item: Item, position: Position, patient: bool)
    | TryReceive(task: Task, justPeeking: bool, patient: bool)
    | SendInterrupt(item: Item, position: Position)
    | ReceiveInterrupt
    | Enter(task: Task, side: Side)
    | LockQueue
    | TimeIsUp
    | LookAgain
    | Place(before: nat)
    | UnlockForReceivers
    | UnlockForSenders
    | Leave
    | WaiterTimesOut(task: Task)

  ghost predicate Waiting(w: World, t: Task) { t in w.q.receivers || t in w.q.senders }
  ghost predicate Engaged(w: World, t: Task) { Waiting(w, t) || t in w.wokenReceivers || t in w.wokenSenders }

  /** Program order: who can take which step. */
  ghost predicate Enabled(w: World, s: Step) {
    match s
    case TrySend(t, _, _, _) => w.section.Free? && t !in w.refused && !Waiting(w, t) && t !in w.wokenReceivers
    case TryReceive(t, _, _) => w.section.Free? && t !in w.refused && !Waiting(w, t) && t !in w.wokenSenders
    case SendInterrupt(_, _) => true
    case ReceiveInterrupt => true
    case Enter(t, _) => w.section.Free? && t in w.refused
    case LockQueue => w.section.In? && w.section.stage == Entered
    case TimeIsUp => w.section.In? && w.section.stage == Locked
    case LookAgain => w.section.In? && w.section.stage == Locked
    case Place(p) => w.section.In? && w.section.stage == Certain && p <= |Line(w, w.section.side)|
    case UnlockForReceivers => w.section.In? && w.section.stage == Unlocking
    case UnlockForSenders => w.section.In? && w.section.stage == HalfUnlocked
    case Leave => w.section.In? && w.section.stage == Unlocked
    case WaiterTimesOut(t) => w.section.Free? && Waiting(w, t)
  }

  function Line(w: World, side: Side): seq<Task> {
    if side == Receiving then w.q.receivers else w.q.senders
  }

  function Members(ts: seq<Task>): set<Task> { set t | t in ts }

  function At(w: World, stage: Stage): World
    requires w.section.In?
  {
    w.(section := w.section.(stage := stage))
  }

  function Refuse(w: World, t: Task, patient: bool): World {
    if patient then w.(refused := w.refused + {t}) else w
  }

  function ApplyTrySend(w: World, t: Task, item: Item, position: Position, patient: bool): World {
    var back := w.(wokenSenders := w.wokenSenders - {t});
    if Full(w.q) then Refuse(back, t, patient)
    else back.(q := Send(w.q, item, position), sent := w.sent + [item],
               wokenReceivers := w.wokenReceivers + Members(First(w.q.receivers)))
  }

  function ApplyTryReceive(w: World, t: Task, justPeeking: bool, patient: bool): World {
    var back := w.(wokenReceivers := w.wokenReceivers - {t});
    if w.q.items == [] then Refuse(back, t, patient)
    else if justPeeking
    then back.(q := Peek(w.q), wokenReceivers := back.wokenReceivers + Members(First(w.q.receivers)))
    else back.(q := Receive(w.q), received := w.received + [w.q.items[0]],
               wokenSenders := w.wokenSenders + Members(First(w.q.senders)))
  }

  function ApplySendInterrupt(w: World, item: Item, position: Position): World {
    if Full(w.q) then w
    else w.(q := SendFromISR(w.q, item, position), sent := w.sent + [item],
            wokenReceivers := w.wokenReceivers + Members(if w.q.txLock == UNLOCKED then First(w.q.receivers) else []))
  }

  function ApplyReceiveInterrupt(w: World): World {
    if w.q.items == [] then w
    else w.(q := ReceiveFromISR(w.q), received := w.received + [w.q.items[0]],
            wokenSenders := w.wokenSenders + Members(if w.q.rxLock == UNLOCKED then First(w.q.senders) else []))
  }

  function ApplyPlace(w: World, p: nat): World
    requires w.section.In? && p <= |Line(w, w.section.side)|
  {
    var line := InsertAt(Line(w, w.section.side), p, w.section.task);
    At(w, Unlocking).(q := if w.section.side == Receiving then w.q.(receivers := line) else w.q.(senders := line))
  }

  /** What prvIsQueueEmpty or prvIsQueueFull finds. */
  predicate StillRefused(w: World)
    requires w.section.In?
  {
    if w.section.side == Receiving then w.q.items == [] else |w.q.items| == w.q.length
  }

  ghost function Apply(w: World, s: Step): World
    requires Enabled(w, s)
  {
    match s
    case TrySend(t, item, position, patient) => ApplyTrySend(w, t, item, position, patient)
    case TryReceive(t, justPeeking, patient) => ApplyTryReceive(w, t, justPeeking, patient)
    case SendInterrupt(item, position) => ApplySendInterrupt(w, item, position)
    case ReceiveInterrupt => ApplyReceiveInterrupt(w)
    case Enter(t, side) => w.(section := In(t, side, Entered), refused := w.refused - {t})
    case LockQueue => At(w, Locked).(q := Lock(w.q))
    case TimeIsUp => At(w, Unlocking)
    case LookAgain => At(w, if StillRefused(w) then Certain else Unlocking)
    case Place(p) => ApplyPlace(w, p)
    case UnlockForReceivers =>
      At(w, HalfUnlocked).(q := UnlockTx(w.q),
        wokenReceivers := w.wokenReceivers + Members(w.q.receivers[..Owed(w.q.txLock, w.q.receivers)]))
    case UnlockForSenders =>
      At(w, Unlocked).(q := UnlockRx(w.q),
        wokenSenders := w.wokenSenders + Members(w.q.senders[..Owed(w.q.rxLock, w.q.senders)]))
    case Leave => w.(section := Free)
    case WaiterTimesOut(t) =>
      w.(q := w.q.(receivers := Without(w.q.receivers, t), senders := Without(w.q.senders, t)))
  }

  // ---- the invariant ----

  function Counted(lock: int): nat { if lock > 0 then lock else 0 }

  /** One side of the queue: what is there for those who wait is spoken for. */
  ghost predicate Supplied(goods: int, lock: int, woken: set<Task>, waiting: seq<Task>) {
    && NoDup(waiting) && (forall t :: t in waiting ==> t !in woken)
    && (waiting != [] ==> goods <= |woken| + Counted(lock))
  }

  function Room(q: Queue): int { q.length - |q.items| }

  /** The locks are held exactly while a task is between locking and unlocking. */
  ghost predicate LocksHeld(q: Queue, section: Section) {
    if section.Free? || section.stage == Entered || section.stage == Unlocked
    then q.txLock == UNLOCKED && q.rxLock == UNLOCKED
    else (if section.stage == HalfUnlocked then q.txLock == UNLOCKED else q.txLock >= 0) && q.rxLock >= 0
  }

  /** After the second look, what has come since is counted in the lock. */
  ghost predicate Justified(q: Queue, section: Section) {
    section.In? && section.stage == Certain ==>
      if section.side == Receiving then |q.items| <= q.txLock else Room(q) <= q.rxLock
  }

  ghost predicate Orderly(w: World) {
    && (forall t :: t in w.refused ==> !Engaged(w, t))
    && (w.section.In? && w.section.stage in {Entered, Locked, Certain} ==>
          w.section.task !in w.refused && !Engaged(w, w.section.task))
  }

  ghost predicate Inv(w: World) {
    && |w.q.items| <= w.q.length
    && Supplied(|w.q.items|, w.q.txLock, w.wokenReceivers, w.q.receivers)
    && Supplied(Room(w.q), w.q.rxLock, w.wokenSenders, w.q.senders)
    && LocksHeld(w.q, w.section) && Justified(w.q, w.section)
    && Orderly(w)
  }

  // ---- one side at a time ----

  lemma {:induction false} MemberCount(line: seq<Task>)
    requires NoDup(line)
    ensures |Members(line)| == |line|
  {
    if line != [] {
      var rest, last := line[..|line| - 1], line[|line| - 1];
      MemberCount(rest);
      assert Members(line) == Members(rest) + {last};
      assert last !in Members(rest);
    }
  }

  lemma StillWaiting(waiting: seq<Task>, n: nat)
    requires NoDup(waiting) && n <= |waiting|
    ensures NoDup(waiting[..n]) && forall t :: t in Members(waiting[..n]) ==> t in waiting
    ensures forall t :: t in waiting[n..] ==> t in waiting && t !in Members(waiting[..n])
  {
  }

  lemma WokenCount(woken: set<Task>, waiting: seq<Task>, n: nat)
    requires NoDup(waiting) && (forall t :: t in waiting ==> t !in woken) && n <= |waiting|
    ensures |woken + Members(waiting[..n])| == |woken| + n
    ensures forall t :: t in waiting[n..] ==> t !in woken + Members(waiting[..n])
  {
    StillWaiting(waiting, n);
    MemberCount(waiting[..n]);
    hide NoDup, Members;
    assert woken !! Members(waiting[..n]);
  }

  /** One more item or slot, and the first in line is woken. */
  lemma WakeOne(goods: int, lock: int, woken: set<Task>, waiting: seq<Task>, more: int)
    requires Supplied(goods, lock, woken, waiting) && more <= goods + 1
    ensures Supplied(more, lock, woken + Members(First(waiting)), Rest(waiting))
  {
    if waiting != [] {
      WokenCount(woken, waiting, 1);
    }
  }

  /** The wake-ups counted in a lock are handed out when it is released. */
  lemma WakeOwed(goods: int, lock: int, woken: set<Task>, waiting: seq<Task>)
    requires Supplied(goods, lock, woken, waiting)
    ensures var n := Owed(lock, waiting); Supplied(goods, UNLOCKED, woken + Members(waiting[..n]), waiting[n..])
  {
    WokenCount(woken, waiting, Owed(lock, waiting));
  }

  /** Whoever comes back takes at most one. */
  lemma ComeBack(goods: int, lock: int, woken: set<Task>, waiting: seq<Task>, t: Task, less: int)
    requires Supplied(goods, lock, woken, waiting) && less <= goods && (t in woken ==> less < goods || less <= 0)
    ensures Supplied(less, lock, woken - {t}, waiting)
  {
    if t in woken {
      assert |woken - {t}| == |woken| - 1;
    } else {
      assert woken - {t} == woken;
    }
  }

  lemma JoinLine(goods: int, lock: int, woken: set<Task>, waiting: seq<Task>, t: Task, p: nat)
    requires Supplied(goods, lock, woken, waiting) && t !in waiting && t !in woken && goods <= lock && p <= |waiting|
    ensures Supplied(goods, lock, woken, InsertAt(waiting, p, t))
  {
    InsertMembers(waiting, p, t);
  }

  lemma LeaveLine(goods: int, lock: int, woken: set<Task>, waiting: seq<Task>, t: Task)
    requires Supplied(goods, lock, woken, waiting)
    ensures Supplied(goods, lock, woken, Without(waiting, t))
    ensures forall x :: x in Without(waiting, t) ==> x in waiting
  {
    WithoutMembers(waiting, t);
  }

  // ---- every step keeps the invariant ----

  lemma TrySendKeeps(w: World, t: Task, item: Item, position: Position, patient: bool)
    requires Inv(w) && Enabled(w, TrySend(t, item, position, patient))
    ensures Inv(Apply(w, TrySend(t, item, position, patient)))
  {
    hide Supplied, Members;
    var r := Apply(w, TrySend(t, item, position, patient));
    if Full(w.q) {
      ComeBack(Room(w.q), w.q.rxLock, w.wokenSenders, w.q.senders, t, Room(w.q));
    } else {
      ComeBack(Room(w.q), w.q.rxLock, w.wokenSenders, w.q.senders, t, Room(w.q) - 1);
      WakeOne(|w.q.items|, w.q.txLock, w.wokenReceivers, w.q.receivers, |w.q.items| + 1);
      WokenWaited(w.q.receivers);
    }
  }

  lemma WokenWaited(waiting: seq<Task>)
    ensures forall t :: t in Members(First(waiting)) ==> t in waiting
    ensures forall t :: t in Rest(waiting) ==> t in waiting
  {
  }

  lemma TryReceiveKeeps(w: World, t: Task, justPeeking: bool, patient: bool)
    requires Inv(w) && Enabled(w, TryReceive(t, justPeeking, patient))
    ensures Inv(Apply(w, TryReceive(t, justPeeking, patient)))
  {
    hide Supplied, Members;
    var n, woken, waiting := |w.q.items|, w.wokenReceivers, w.q.receivers;
    if w.q.items == [] {
      ComeBack(n, w.q.txLock, woken, waiting, t, n);
    } else if justPeeking {
      PeekPassesOn(n, w.q.txLock, woken, waiting, t);
      WokenWaited(waiting);
    } else {
      ComeBack(n, w.q.txLock, woken, waiting, t, n - 1);
      WakeOne(Room(w.q), w.q.rxLock, w.wokenSenders, w.q.senders, Room(w.q) + 1);
      WokenWaited(w.q.senders);
    }
  }

  /** A peek leaves the item to the next in line. */
  lemma PeekPassesOn(goods: int, lock: int, woken: set<Task>, waiting: seq<Task>, t: Task)
    requires Supplied(goods, lock, woken, waiting) && t !in waiting
    ensures Supplied(goods, lock, woken - {t} + Members(First(waiting)), Rest(waiting))
  {
    if waiting != [] {
      WokenCount(woken - {t}, waiting, 1);
      assert |woken - {t}| >= |woken| - 1 by {
        if t in woken { assert |woken - {t}| == |woken| - 1; } else { assert woken - {t} == woken; }
      }
    }
  }

  /** One more item or slot on a locked queue is counted. */
  lemma CountOne(goods: int, lock: int, woken: set<Task>, waiting: seq<Task>)
    requires Supplied(goods, lock, woken, waiting) && lock >= 0
    ensures Supplied(goods + 1, lock + 1, woken, waiting)
  {
  }

  lemma SendInterruptKeeps(w: World, item: Item, position: Position)
    requires Inv(w)
    ensures Inv(ApplySendInterrupt(w, item, position))
  {
    hide Members, Supplied;
    if !Full(w.q) {
      ComeBackNobody(Room(w.q), w.q.rxLock, w.wokenSenders, w.q.senders);
      if w.q.txLock == UNLOCKED {
        WakeOne(|w.q.items|, w.q.txLock, w.wokenReceivers, w.q.receivers, |w.q.items| + 1);
        WokenWaited(w.q.receivers);
      } else {
        CountOne(|w.q.items|, w.q.txLock, w.wokenReceivers, w.q.receivers);
        NobodyWoken(w.wokenReceivers);
      }
    }
  }

  lemma ReceiveInterruptKeeps(w: World)
    requires Inv(w)
    ensures Inv(ApplyReceiveInterrupt(w))
  {
    hide Members, Supplied;
    if w.q.items != [] {
      ComeBackNobody(|w.q.items|, w.q.txLock, w.wokenReceivers, w.q.receivers);
      if w.q.rxLock == UNLOCKED {
        WakeOne(Room(w.q), w.q.rxLock, w.wokenSenders, w.q.senders, Room(w.q) + 1);
        WokenWaited(w.q.senders);
      } else {
        CountOne(Room(w.q), w.q.rxLock, w.wokenSenders, w.q.senders);
        NobodyWoken(w.wokenSenders);
      }
    }
  }

  /** Less is there, and nobody comes back for it. */
  lemma ComeBackNobody(goods: int, lock: int, woken: set<Task>, waiting: seq<Task>)
    requires Supplied(goods, lock, woken, waiting)
    ensures Supplied(goods - 1, lock, woken, waiting)
  {
  }

  lemma NobodyWoken(woken: set<Task>)
    ensures woken + Members([]) == woken
  {
  }

  lemma SectionKeeps(w: World, s: Step)
    requires Inv(w) && Enabled(w, s)
    requires s.Enter? || s.LockQueue? || s.TimeIsUp? || s.LookAgain? || s.Leave?
    ensures Inv(Apply(w, s))
  {
  }

  lemma PlaceKeeps(w: World, p: nat)
    requires Inv(w) && Enabled(w, Place(p))
    ensures Inv(Apply(w, Place(p)))
  {
    hide Supplied;
    var t := w.section.task;
    var r := Apply(w, Place(p));
    InsertMembers(Line(w, w.section.side), p, t);
    if w.section.side == Receiving {
      JoinLine(|w.q.items|, w.q.txLock, w.wokenReceivers, w.q.receivers, t, p);
      assert r.q.receivers == InsertAt(w.q.receivers, p, t);
    } else {
      JoinLine(Room(w.q), w.q.rxLock, w.wokenSenders, w.q.senders, t, p);
      assert r.q.senders == InsertAt(w.q.senders, p, t);
    }
  }

  lemma UnlockKeeps(w: World, s: Step)
    requires Inv(w) && Enabled(w, s) && (s.UnlockForReceivers? || s.UnlockForSenders?)
    ensures Inv(Apply(w, s))
  {
    hide Supplied, NoDup, Owed;
    match s
    case UnlockForReceivers => WakeOwed(|w.q.items|, w.q.txLock, w.wokenReceivers, w.q.receivers);
    case UnlockForSenders => WakeOwed(Room(w.q), w.q.rxLock, w.wokenSenders, w.q.senders);
  }

  lemma StepKeeps(w: World, s: Step)
    requires Inv(w) && Enabled(w, s)
    ensures Inv(Apply(w, s))
  {
    hide Inv;
    match s
    case TrySend(t, item, position, patient) => TrySendKeeps(w, t, item, position, patient);
    case TryReceive(t, justPeeking, patient) => TryReceiveKeeps(w, t, justPeeking, patient);
    case SendInterrupt(item, position) => SendInterruptKeeps(w, item, position);
    case ReceiveInterrupt => ReceiveInterruptKeeps(w);
    case Place(p) => PlaceKeeps(w, p);
    case UnlockForReceivers => UnlockKeeps(w, s);
    case UnlockForSenders => UnlockKeeps(w, s);
    case WaiterTimesOut(t) => TimeOutKeeps(w, t);
    case _ => SectionKeeps(w, s);
  }

  lemma TimeOutKeeps(w: World, t: Task)
    requires Inv(w) && Enabled(w, WaiterTimesOut(t))
    ensures Inv(Apply(w, WaiterTimesOut(t)))
  {
    hide Supplied;
    LeaveLine(|w.q.items|, w.q.txLock, w.wokenReceivers, w.q.receivers, t);
    LeaveLine(Room(w.q), w.q.rxLock, w.wokenSenders, w.q.senders, t);
  }

  // ---- whole runs ----

  ghost function Run(w: World, steps: seq<Step>): World
    requires RunEnabled(w, steps)
    decreases |steps|
  {
    if steps == [] then w else Run(Apply(w, steps[0]), steps[1..])
  }

  ghost predicate RunEnabled(w: World, steps: seq<Step>)
    decreases |steps|
  {
    steps != [] ==> Enabled(w, steps[0]) && RunEnabled(Apply(w, steps[0]), steps[1..])
  }

  /** A queue just created. */
  function Fresh(length: nat): World {
    World(Queue(length, [], UNLOCKED, UNLOCKED, [], []), Free, {}, {}, {}, [], [])
  }

  lemma {:induction false} RunKeeps(w: World, steps: seq<Step>)
    requires Inv(w) && RunEnabled(w, steps)
    ensures Inv(Run(w, steps))
    decreases |steps|
  {
    hide Inv, Apply, Enabled;
    if steps != [] {
      StepKeeps(w, steps[0]);
      RunKeeps(Apply(w, steps[0]), steps[1..]);
    }
  }

  /**
   * No lost wake-up.  In every state that a run from a fresh queue reaches: if a task
   * waits to receive, then every item in the queue is matched by a task woken to come for
   * it or by a wake-up counted in the lock; and likewise for free slots and senders.
   */
  lemma NoLostWakeUp(length: nat, steps: seq<Step>)
    requires RunEnabled(Fresh(length), steps)
    ensures var w := Run(Fresh(length), steps);
            && (w.q.receivers != [] ==> |w.q.items| <= |w.wokenReceivers| + Counted(w.q.txLock))
            && (w.q.senders != [] ==> length - |w.q.items| <= |w.wokenSenders| + Counted(w.q.rxLock))
  {
    hide Apply, Enabled;
    RunKeeps(Fresh(length), steps);
    LengthFixed(Fresh(length), steps);
  }

  lemma {:induction false} LengthFixed(w: World, steps: seq<Step>)
    requires RunEnabled(w, steps)
    ensures Run(w, steps).q.length == w.q.length
    decreases |steps|
  {
    hide Apply, Enabled;
    if steps != [] {
      ItemsMove(w, steps[0]);
      LengthFixed(Apply(w, steps[0]), steps[1..]);
    }
  }

  /** With nobody on the way and the queue unlocked, no task is blocked on what is there. */
  lemma NobodyBlockedForNothing(length: nat, steps: seq<Step>)
    requires RunEnabled(Fresh(length), steps)
    ensures var w := Run(Fresh(length), steps);
            && (w.section.Free? && w.wokenReceivers == {} && w.q.items != [] ==> w.q.receivers == [])
            && (w.section.Free? && w.wokenSenders == {} && |w.q.items| < length ==> w.q.senders == [])
  {
    hide Apply, Enabled;
    NoLostWakeUp(length, steps);
    RunKeeps(Fresh(length), steps);
  }

  // ---- a woken task that is deleted before it is back ----

  function DeleteWoken(w: World, t: Task): World {
    w.(wokenReceivers := w.wokenReceivers - {t}, wokenSenders := w.wokenSenders - {t})
  }

  /** One woken task less on one side. */
  lemma OneLess(goods: int, lock: int, woken: set<Task>, waiting: seq<Task>, t: Task)
    requires Supplied(goods, lock, woken, waiting)
    ensures Supplied(goods, lock, woken - {t}, waiting) <==>
            (t in woken ==> waiting == [] || goods < |woken| + Counted(lock))
  {
    if t in woken {
      assert |woken - {t}| == |woken| - 1;
    } else {
      assert woken - {t} == woken;
    }
  }

  /** Deleting a woken task keeps the guarantee exactly when, on each side it was woken for,
      nobody else waits or there is a wake-up to spare. */
  lemma DeletingWoken(w: World, t: Task)
    requires Inv(w)
    ensures Inv(DeleteWoken(w, t)) <==>
            && (t in w.wokenReceivers ==> w.q.receivers == [] || |w.q.items| < |w.wokenReceivers| + Counted(w.q.txLock))
            && (t in w.wokenSenders ==> w.q.senders == [] || Room(w.q) < |w.wokenSenders| + Counted(w.q.rxLock))
  {
    hide Supplied, LocksHeld, Justified;
    OneLess(|w.q.items|, w.q.txLock, w.wokenReceivers, w.q.receivers, t);
    OneLess(Room(w.q), w.q.rxLock, w.wokenSenders, w.q.senders, t);
  }

  /** The woken receivers are on their way back and nowhere else. */
  ghost predicate OnTheWay(w: World) {
    forall t :: t in w.wokenReceivers ==> t !in w.refused && !Waiting(w, t) && t !in w.wokenSenders
  }

  lemma ComesBack(w: World, t: Task)
    requires w.section.Free? && OnTheWay(w) && t in w.wokenReceivers && |w.q.items| > |w.wokenReceivers|
    ensures Enabled(w, TryReceive(t, false, false))
    ensures var r := Apply(w, TryReceive(t, false, false));
            && r.section.Free? && OnTheWay(r) && r.wokenReceivers == w.wokenReceivers - {t}
            && |r.q.items| == |w.q.items| - 1 && |r.wokenReceivers| == |w.wokenReceivers| - 1
            && r.q.receivers == w.q.receivers
  {
    var r := Apply(w, TryReceive(t, false, false));
    assert forall x :: x in r.q.senders ==> x in w.q.senders;
    assert forall x :: x in Members(First(w.q.senders)) ==> x in w.q.senders;
  }

  /** With more items than woken receivers, receivers stay blocked on items although nothing
      is on the way to them: the woken ones come back, each takes its item, and that is all. */
  lemma {:induction false} Stranded(w: World) returns (steps: seq<Step>)
    requires w.section.Free? && OnTheWay(w) && |w.q.items| > |w.wokenReceivers| && w.q.receivers != []
    ensures RunEnabled(w, steps)
    ensures var r := Run(w, steps);
            r.section.Free? && r.wokenReceivers == {} && r.q.items != [] && r.q.receivers == w.q.receivers
    decreases |w.wokenReceivers|
  {
    hide Apply, Enabled;
    if w.wokenReceivers == {} {
      steps := [];
    } else {
      var t :| t in w.wokenReceivers;
      var s := TryReceive(t, false, false);
      ComesBack(w, t);
      var rest := Stranded(Apply(w, s));
      RunOne(w, s, Apply(w, s), rest);
      steps := [s] + rest;
    }
  }

  lemma RunOne(w: World, s: Step, r: World, rest: seq<Step>)
    requires Enabled(w, s) && Apply(w, s) == r && RunEnabled(r, rest)
    ensures RunEnabled(w, [s] + rest) && Run(w, [s] + rest) == Run(r, rest)
  {
    assert ([s] + rest)[1..] == rest;
  }

  /** What a task does that finds the queue empty: it blocks on it, first in line. */
  function BlockToReceive(t: Task, rest: seq<Step>): seq<Step> {
    [TryReceive(t, false, true)] + ([Enter(t, Receiving)] + ([LockQueue] + ([LookAgain] + ([Place(0)]
      + ([UnlockForReceivers] + ([UnlockForSenders] + ([Leave] + rest)))))))
  }

  ghost predicate Quiet(w: World) {
    && w.section.Free? && w.q.items == [] && w.q.length > 0 && w.q.txLock == UNLOCKED && w.q.rxLock == UNLOCKED
    && w.refused == {} && w.wokenReceivers == {} && w.wokenSenders == {}
  }

  function Inside(w: World, t: Task, stage: Stage, rxLock: int, txLock: int, line: seq<Task>): World {
    w.(section := In(t, Receiving, stage), q := w.q.(rxLock := rxLock, txLock := txLock, receivers := line))
  }

  function Blocked(w: World, t: Task): World {
    w.(q := w.q.(receivers := [t] + w.q.receivers))
  }

  lemma GoingIn(w: World, t: Task)
    requires Quiet(w) && !Waiting(w, t)
    ensures var a := w.q.receivers;
            && Enabled(w, TryReceive(t, false, true)) && Apply(w, TryReceive(t, false, true)) == w.(refused := {t})
            && Apply(w.(refused := {t}), Enter(t, Receiving)) == Inside(w, t, Entered, -1, -1, a)
            && Apply(Inside(w, t, Entered, -1, -1, a), LockQueue) == Inside(w, t, Locked, 0, 0, a)
            && Apply(Inside(w, t, Locked, 0, 0, a), LookAgain) == Inside(w, t, Certain, 0, 0, a)
  {
    hide Members, Without, Owed;
    assert w.wokenReceivers - {t} == {} && {t} - {t} == {} && w.refused + {t} == {t};
  }

  lemma ComingOut(w: World, t: Task)
    requires Quiet(w)
    ensures var a, line := w.q.receivers, [t] + w.q.receivers;
            && Apply(Inside(w, t, Certain, 0, 0, a), Place(0)) == Inside(w, t, Unlocking, 0, 0, line)
            && Apply(Inside(w, t, Unlocking, 0, 0, line), UnlockForReceivers) == Inside(w, t, HalfUnlocked, 0, -1, line)
            && Apply(Inside(w, t, HalfUnlocked, 0, -1, line), UnlockForSenders) == Inside(w, t, Unlocked, -1, -1, line)
            && Apply(Inside(w, t, Unlocked, -1, -1, line), Leave) == Blocked(w, t)
  {
    hide Members, Without;
    var a, line := w.q.receivers, [t] + w.q.receivers;
    assert InsertAt(a, 0, t) == line;
    assert line[0..] == line && w.q.senders[0..] == w.q.senders && line[..0] == [] && w.q.senders[..0] == [];
    NobodyWoken({});
  }

  lemma Blocking(w: World, t: Task, rest: seq<Step>)
    requires Quiet(w) && !Waiting(w, t) && RunEnabled(Blocked(w, t), rest)
    ensures RunEnabled(w, BlockToReceive(t, rest))
    ensures Run(w, BlockToReceive(t, rest)) == Run(Blocked(w, t), rest)
  {
    hide RunEnabled, Run, Apply;
    GoingIn(w, t);
    ComingOut(w, t);
    var a, line := w.q.receivers, [t] + w.q.receivers;
    var r1 := [Leave] + rest;
    RunOne(Inside(w, t, Unlocked, -1, -1, line), Leave, Blocked(w, t), rest);
    var r2 := [UnlockForSenders] + r1;
    RunOne(Inside(w, t, HalfUnlocked, 0, -1, line), UnlockForSenders, Inside(w, t, Unlocked, -1, -1, line), r1);
    var r3 := [UnlockForReceivers] + r2;
    RunOne(Inside(w, t, Unlocking, 0, 0, line), UnlockForReceivers, Inside(w, t, HalfUnlocked, 0, -1, line), r2);
    var r4 := [Place(0)] + r3;
    RunOne(Inside(w, t, Certain, 0, 0, a), Place(0), Inside(w, t, Unlocking, 0, 0, line), r3);
    var r5 := [LookAgain] + r4;
    RunOne(Inside(w, t, Locked, 0, 0, a), LookAgain, Inside(w, t, Certain, 0, 0, a), r4);
    var r6 := [LockQueue] + r5;
    RunOne(Inside(w, t, Entered, -1, -1, a), LockQueue, Inside(w, t, Locked, 0, 0, a), r5);
    RunOne(w.(refused := {t}), Enter(t, Receiving), Inside(w, t, Entered, -1, -1, a), r6);
    RunOne(w, TryReceive(t, false, true), w.(refused := {t}), [Enter(t, Receiving)] + r6);
  }

  /** It does happen: tasks 2 and 1 block, an interrupt sends one item, task 1 is woken and
      deleted before it runs, and task 2 stays blocked on a queue that is not empty. */
  lemma DeletingWokenExample(item: Item)
    ensures var steps := BlockToReceive(2, BlockToReceive(1, [SendInterrupt(item, Back)]));
            && RunEnabled(Fresh(4), steps)
            && var w := DeleteWoken(Run(Fresh(4), steps), 1);
               w.q.items == [item] && w.q.receivers == [2] && w.section.Free? && w.wokenReceivers == {} && !Inv(w)
  {
    hide BlockToReceive;
    var w2, last := Blocked(Fresh(4), 2), [SendInterrupt(item, Back)];
    assert w2.q.receivers == [2];
    var w1 := Blocked(w2, 1);
    assert w1.q.receivers == [1, 2];
    var w0 := Apply(w1, SendInterrupt(item, Back));
    assert w0.q.receivers == [2] && w0.q.items == [item] && w0.wokenReceivers == {1};
    assert last[1..] == [] && Run(w1, last) == w0;
    Blocking(w2, 1, last);
    Blocking(Fresh(4), 2, BlockToReceive(1, last));
  }

  // ---- what goes in comes out ----

  /** Everything sent is in the queue or was received, each item as often as it was sent. */
  ghost predicate Conserved(w: World) {
    multiset(w.sent) == multiset(w.received) + multiset(w.q.items)
  }

  lemma ItemGoesIn(w: World, r: World, item: Item, position: Position)
    requires Conserved(w) && r.sent == w.sent + [item] && r.received == w.received
    requires r.q.items == Added(w.q.items, item, position)
    ensures Conserved(r)
  {
    if position == Front {
      assert multiset([item] + w.q.items) == multiset([item]) + multiset(w.q.items);
    }
  }

  lemma ItemComesOut(w: World, r: World)
    requires Conserved(w) && w.q.items != [] && r.sent == w.sent
    requires r.received == w.received + [w.q.items[0]] && r.q.items == w.q.items[1..]
    ensures Conserved(r)
  {
    assert w.q.items == [w.q.items[0]] + w.q.items[1..];
  }

  /** Does the step put an item in, or take one out? */
  predicate PutsIn(w: World, s: Step) { (s.TrySend? || s.SendInterrupt?) && !Full(w.q) }
  predicate TakesOut(w: World, s: Step) {
    ((s.TryReceive? && !s.justPeeking) || s.ReceiveInterrupt?) && w.q.items != []
  }

  lemma ItemsMove(w: World, s: Step)
    requires Enabled(w, s)
    ensures var r := Apply(w, s);
            && r.q.items == (if PutsIn(w, s) then Added(w.q.items, s.item, s.position)
                             else if TakesOut(w, s) then w.q.items[1..] else w.q.items)
            && r.sent == (if PutsIn(w, s) then w.sent + [s.item] else w.sent)
            && r.received == (if TakesOut(w, s) then w.received + [w.q.items[0]] else w.received)
            && r.q.length == w.q.length
  {
    hide Added, InsertAt, Members;
  }

  lemma StepConserves(w: World, s: Step)
    requires Enabled(w, s) && Conserved(w)
    ensures Conserved(Apply(w, s))
  {
    hide Apply, Enabled;
    ItemsMove(w, s);
    if PutsIn(w, s) {
      ItemGoesIn(w, Apply(w, s), s.item, s.position);
    } else if TakesOut(w, s) {
      ItemComesOut(w, Apply(w, s));
    }
  }

  /** With sends to the back only, items are received in the order in which they were sent. */
  ghost predicate FirstInFirstOut(w: World) {
    w.sent == w.received + w.q.items
  }

  predicate ToBack(s: Step) {
    (s.TrySend? || s.SendInterrupt? ==> s.position == Back)
  }

  lemma StepKeepsOrder(w: World, s: Step)
    requires Enabled(w, s) && FirstInFirstOut(w) && ToBack(s)
    ensures FirstInFirstOut(Apply(w, s))
  {
    hide Apply, Enabled;
    ItemsMove(w, s);
    if PutsIn(w, s) {
      assert w.received + w.q.items + [s.item] == w.received + (w.q.items + [s.item]);
    } else if TakesOut(w, s) {
      assert w.received + w.q.items == w.received + [w.q.items[0]] + w.q.items[1..];
    }
  }

  lemma {:induction false} RunConserves(w: World, steps: seq<Step>)
    requires RunEnabled(w, steps)
    ensures Conserved(w) ==> Conserved(Run(w, steps))
    ensures FirstInFirstOut(w) && (forall s :: s in steps ==> ToBack(s)) ==> FirstInFirstOut(Run(w, steps))
    decreases |steps|
  {
    hide Conserved, FirstInFirstOut, Apply, Enabled, ToBack;
    if steps != [] {
      if Conserved(w) { StepConserves(w, steps[0]); }
      if FirstInFirstOut(w) && ToBack(steps[0]) { StepKeepsOrder(w, steps[0]); }
      RunConserves(Apply(w, steps[0]), steps[1..]);
      assert forall s :: s in steps[1..] ==> s in steps;
      assert steps[0] in steps;
    }
  }
}
