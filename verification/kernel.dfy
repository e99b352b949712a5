/**
 * The state of the scheduler (tasks.c) and its operations on it, as values.
 */
module Kernel {
  import opened Seqs
  import opened Items
  import opened Tasks

  datatype Kernel = Kernel(
    modulus: nat,            // portMAX_DELAY + 1
    levels: nat,             // configMAX_PRIORITIES
    tasks: set<Task>,        // tasks whose control block is not freed
    items: Items,
    priority: map<Task, nat>,
    basePriority: map<Task, nat>,
    wakeValue: map<Task, nat>,    // value of the generic item
    eventValue: map<Task, nat>,   // value of the event item
    current: Task,
    idle: Task,
    running: bool,
    second: bool,            // which of the two lists is the current delayed list
    tick: nat,
    overflows: nat,
    nextUnblock: nat,
    suspended: nat,
    missedTicks: nat,
    missedYield: bool,
    topReady: nat,
    taskCount: nat,
    deletedCount: nat)

  function Priority(k: Kernel, t: Task): nat { Value(k.priority, t) }
  function Wake(k: Kernel, t: Task): nat { Value(k.wakeValue, t) }
  function Ring(k: Kernel, p: nat): seq<Task> { At(k.items, Ready(p)) }
  function CurrentDelayed(k: Kernel): seq<Task> { At(k.items, Delayed(k.second)) }
  function OverflowDelayed(k: Kernel): seq<Task> { At(k.items, Delayed(!k.second)) }

  /** portMAX_DELAY */
  function MaxDelay(k: Kernel): nat { if k.modulus > 0 then k.modulus - 1 else 0 }

  /** prvAddTaskToReadyQueue */
  function AddToReady(k: Kernel, t: Task): Kernel {
    k.(items := AppendGeneric(k.items, t, Ready(Priority(k, t))), topReady := Raised(k.topReady, Priority(k, t)))
  }

  function Raised(top: nat, p: nat): nat { if p > top then p else top }

  // ---- ticks ----

  function RaisedBy(top: nat, ts: seq<Task>, priority: map<Task, nat>): nat
    decreases |ts|
  {
    if ts == [] then top else RaisedBy(Raised(top, Value(priority, ts[0])), ts[1..], priority)
  }

  /** Blocked tasks become ready one after another. */
  function ReadyAll(k: Kernel, ts: seq<Task>): Kernel {
    k.(items := UnblockAll(k.items, ts, k.priority), topReady := RaisedBy(k.topReady, ts, k.priority))
  }

  /** The earliest value in the current delayed list, or portMAX_DELAY. */
  function HeadValue(k: Kernel): nat {
    var s := CurrentDelayed(k);
    if s == [] then MaxDelay(k) else Wake(k, s[0])
  }

  /** How many tasks stand in the current delayed list before the first whose time has not come. */
  function DueCount(k: Kernel): (n: nat)
    ensures n <= |CurrentDelayed(k)|
  {
    InsertPosition(Values(k.wakeValue, CurrentDelayed(k)), k.tick)
  }

  /** prvCheckDelayedTasks */
  function CheckDelayed(k: Kernel): Kernel {
    if k.tick < k.nextUnblock then k
    else
      var k1 := ReadyAll(k, CurrentDelayed(k)[..DueCount(k)]);
      k1.(nextUnblock := HeadValue(k1))
  }

  /** The count moves on; when it wraps the two delayed lists change places. */
  function AdvanceTick(k: Kernel): Kernel {
    var wraps := k.tick + 1 >= k.modulus;
    k.(tick := if wraps then 0 else k.tick + 1,
       second := if wraps then !k.second else k.second,
       overflows := if wraps then k.overflows + 1 else k.overflows,
       nextUnblock := if wraps then HeadValue(k.(second := !k.second)) else k.nextUnblock)
  }

  /** vTaskIncrementTick */
  function Tick(k: Kernel): Kernel {
    if k.suspended == 0 then CheckDelayed(AdvanceTick(k))
    else k.(missedTicks := k.missedTicks + 1)
  }

  // ---- choosing a task ----

  function TopNonEmpty(k: Kernel, p: nat): nat {
    if p == 0 || Ring(k, p) != [] then p else TopNonEmpty(k, p - 1)
  }

  /** listGET_OWNER_OF_NEXT_ENTRY on a ready list: its ring turns by one. */
  function Rotated(s: Items, p: nat): (r: Items)
    ensures r.generic == s.generic && r.event == s.event
    ensures forall l :: At(r, l) == if l == Ready(p) && At(s, l) != [] then At(s, l)[1..] + At(s, l)[..1] else At(s, l)
  {
    var ring := At(s, Ready(p));
    if ring == [] then s else s.(lists := s.lists[Ready(p) := ring[1..] + ring[..1]])
  }

  /** vTaskSwitchContext */
  function SwitchContext(k: Kernel): Kernel {
    var p, free := TopNonEmpty(k, k.topReady), k.suspended == 0;
    k.(missedYield := k.missedYield || !free,
       topReady := if free then p else k.topReady,
       current := if free && Ring(k, p) != [] then Ring(k, p)[0] else k.current,
       items := if free then Rotated(k.items, p) else k.items)
  }

  // ---- suspending the scheduler ----

  /** vTaskSuspendAll */
  function SuspendAll(k: Kernel): Kernel { k.(suspended := k.suspended + 1) }

  function CatchUp(k: Kernel, n: nat): Kernel
    decreases n
  {
    if n == 0 then k else CatchUp(Tick(k), n - 1)
  }

  /** What xTaskResumeAll does before it decides to yield. */
  function Resumed(k: Kernel): Kernel
    requires k.suspended > 0
  {
    var k1 := k.(suspended := k.suspended - 1);
    if k1.suspended > 0 || k1.taskCount == 0 then k1
    else CatchUp(ReadyAll(k1, At(k1.items, Pending)), k1.missedTicks).(missedTicks := 0)
  }

  predicate SomeOutranks(priority: map<Task, nat>, ts: seq<Task>, current: Task) {
    exists i :: 0 <= i < |ts| && Value(priority, ts[i]) >= Value(priority, current)
  }

  predicate YieldOnResume(k: Kernel)
    requires k.suspended > 0
  {
    && k.suspended == 1 && k.taskCount > 0
    && (k.missedYield || k.missedTicks > 0 || SomeOutranks(k.priority, At(k.items, Pending), k.current))
  }

  /** xTaskResumeAll, with the yield it may make. */
  function ResumeAll(k: Kernel): Kernel
    requires k.suspended > 0
  {
    if YieldOnResume(k) then SwitchContext(Resumed(k).(missedYield := false)) else Resumed(k)
  }

  // ---- blocking and waking ----

  /** Where a task with wake value `wake` goes in the delayed list `l`. */
  function WakePosition(k: Kernel, l: Place, wake: nat): (p: nat)
    ensures p <= |At(k.items, l)|
  {
    InsertPosition(Values(k.wakeValue, At(k.items, l)), wake)
  }

  /** prvAddCurrentTaskToDelayedList */
  function AddCurrentToDelayed(k: Kernel, wake: nat): Kernel {
    var l := Delayed(if wake < k.tick then !k.second else k.second);
    k.(items := PutGeneric(k.items, k.current, l, WakePosition(k, l, wake)),
       wakeValue := k.wakeValue[k.current := wake],
       nextUnblock := if k.tick <= wake < k.nextUnblock then wake else k.nextUnblock)
  }

  /** The part of vTaskDelay that runs with the scheduler suspended. */
  function Delay(k: Kernel, ticks: nat): Kernel
    requires k.modulus > 0
  {
    AddCurrentToDelayed(k.(items := TakeGeneric(k.items, k.current)), (k.tick + ticks) % k.modulus)
  }

  /** Where a task with event value `v` goes in the event list of queue `q`. */
  function EventPosition(k: Kernel, q: nat, v: nat): (p: nat)
    ensures p <= |At(k.items, Event(q))|
  {
    InsertPosition(Values(k.eventValue, At(k.items, Event(q))), v)
  }

  /** vTaskPlaceOnEventList */
  function PlaceOnEventList(k: Kernel, q: nat, ticks: nat): Kernel
    requires k.modulus > 0
  {
    var p := EventPosition(k, q, Value(k.eventValue, k.current));
    Delay(k.(items := PutEvent(k.items, k.current, Event(q), p)), ticks)
  }

  /** The lists when `t` of priority `p` is woken: ready, or pending if the scheduler is suspended. */
  function WokenItems(s: Items, t: Task, p: nat, suspended: bool): (r: Items)
    ensures forall x :: Generic(r, x) == if x == t && !suspended then Ready(p) else Generic(s, x)
    ensures forall x :: EventPlace(r, x) == if x != t then EventPlace(s, x) else if suspended then Pending else Nowhere
  {
    var a := TakeEvent(s, t);
    if suspended then PutEvent(a, t, Pending, |At(a, Pending)|) else AppendGeneric(TakeGeneric(a, t), t, Ready(p))
  }

  /** xTaskRemoveFromEventList */
  function RemoveFromEventList(k: Kernel, q: nat): Kernel
    requires At(k.items, Event(q)) != []
  {
    var t := At(k.items, Event(q))[0];
    k.(items := WokenItems(k.items, t, Priority(k, t), k.suspended > 0),
       topReady := if k.suspended > 0 then k.topReady else Raised(k.topReady, Priority(k, t)))
  }

  /** The answer of xTaskRemoveFromEventList: should the caller yield? */
  predicate WokenOutranks(k: Kernel, q: nat)
    requires At(k.items, Event(q)) != []
  {
    Priority(k, At(k.items, Event(q))[0]) >= Priority(k, k.current)
  }

  // ---- tasks come and go ----

  function Capped(levels: nat, p: nat): nat { if p < levels then p else if levels > 0 then levels - 1 else 0 }

  /** configMAX_PRIORITIES - priority: higher priorities sort first. */
  function EventRank(levels: nat, p: nat): nat { if p <= levels then levels - p else 0 }

  /** A new control block is filled in, and becomes the current one if it is to run first. */
  function Registered(k: Kernel, t: Task, priority: nat): Kernel {
    var p := Capped(k.levels, priority);
    k.(
      tasks := k.tasks + {t},
      priority := k.priority[t := p], basePriority := k.basePriority[t := p],
      eventValue := k.eventValue[t := EventRank(k.levels, p)],
      taskCount := k.taskCount + 1,
      current := if k.tasks == {} || (!k.running && Priority(k, k.current) <= priority) then t else k.current)
  }

  /** xTaskGenericCreate up to the yield, for a control block `t` just allocated. */
  function Create(k: Kernel, t: Task, priority: nat): Kernel {
    AddToReady(Registered(k, t, priority), t)
  }

  /** vTaskStartScheduler: the idle task is created and ticks start to count. */
  function Start(k: Kernel, idle: Task): Kernel {
    Create(k, idle, 0).(idle := idle, running := true, tick := 0)
  }

  /** vTaskDelete up to the yield. */
  function Delete(k: Kernel, t: Task): Kernel {
    k.(items := AppendGeneric(TakeBoth(k.items, t), t, Terminating), deletedCount := k.deletedCount + 1)
  }

  /** prvCheckTasksWaitingTermination, for a non-empty list: the first task is freed. */
  function Reap(k: Kernel): Kernel
    requires At(k.items, Terminating) != [] && k.taskCount > 0 && k.deletedCount > 0
  {
    var t := At(k.items, Terminating)[0];
    k.(items := TakeGeneric(k.items, t), tasks := k.tasks - {t},
       taskCount := k.taskCount - 1, deletedCount := k.deletedCount - 1)
  }

  // ---- priority inheritance ----

  /** A ready task `h` moves to the list of priority `p`. */
  function MovedItems(s: Items, h: Task, p: nat): (r: Items)
    ensures forall x :: Generic(r, x) == if x == h then Ready(p) else Generic(s, x)
    ensures forall x :: EventPlace(r, x) == EventPlace(s, x)
  {
    AppendGeneric(TakeGeneric(s, h), h, Ready(p))
  }

  /** vTaskPriorityInherit for the holder `h`. */
  function Inherit(k: Kernel, h: Task): Kernel {
    var p := Priority(k, k.current);
    var raises := Priority(k, h) < p;
    var moves := raises && Generic(k.items, h) == Ready(Priority(k, h));
    k.(priority := if raises then k.priority[h := p] else k.priority,
       eventValue := if raises then k.eventValue[h := EventRank(k.levels, p)] else k.eventValue,
       items := if moves then MovedItems(k.items, h, p) else k.items,
       topReady := if moves then Raised(k.topReady, p) else k.topReady)
  }

  /** vTaskPriorityDisinherit for a holder. */
  function Disinherit(k: Kernel, h: Task): Kernel {
    var b := Value(k.basePriority, h);
    var drops := Priority(k, h) != b;
    k.(priority := if drops then k.priority[h := b] else k.priority,
       eventValue := if drops then k.eventValue[h := EventRank(k.levels, b)] else k.eventValue,
       items := if drops then MovedItems(k.items, h, b) else k.items,
       topReady := if drops then Raised(k.topReady, b) else k.topReady)
  }
}
