/**
 * Mutexes with priority inheritance (queue.c on tasks.c), over whole runs in which only
 * the holder gives a mutex back and a task holds at most one at a time.
 */
module Mutexes {
  import opened Seqs
  import opened Items
  import opened Tasks
  import opened Kernel
  import opened Invariant
  import opened Lifecycle
  import opened Runs
  import opened EventOrder

  /** uxMessagesWaiting and pxMutexHolder of a queue of type queueQUEUE_IS_MUTEX */
  datatype Mutex = Mutex(messages: nat, holder: Holder)

  datatype World = World(k: Kernel, mutexes: map<nat, Mutex>)

  datatype Event =
    | Create(mutex: nat)
    | Take(mutex: nat)                // the first look of a receive
    | WaitFor(mutex: nat, ticks: nat) // the second look, with the scheduler suspended
    | Give(mutex: nat)
    | Other(step: Step)

  predicate Holds(w: World, q: nat, t: Task) {
    q in w.mutexes && w.mutexes[q].holder == HeldBy(t)
  }

  ghost predicate HoldsAny(w: World, t: Task) { exists q :: Holds(w, q, t) }

  /** Steps of the rest of the kernel leave the mutexes to their own operations. */
  ghost predicate Unrelated(w: World, s: Step) {
    match s
    case InheritTo(_) => false
    case DisinheritFrom(_) => false
    case WakeFirst(q) => q !in w.mutexes
    case BlockCurrent(q, _) => q !in w.mutexes
    case DeleteTask(t) => !HoldsAny(w, t)
    case _ => true
  }

  ghost predicate Executing(k: Kernel) {
    k.running && Generic(k.items, k.current).Ready?
  }

  /** Whoever gives, dropping the holder's priority is to leave the kernel's lists in order. */
  ghost predicate MayDrop(k: Kernel, holder: Holder) {
    holder.HeldBy? ==> MayDisinherit(k, holder.task)
  }

  ghost predicate MayHappen(w: World, e: Event) {
    match e
    case Create(q) => q !in w.mutexes && Waiters(w.k.items, q) == []
    case Take(q) => q in w.mutexes && Executing(w.k)
    case WaitFor(q, n) => q in w.mutexes && MayBlock(w.k, n)
    case Give(q) => q in w.mutexes && Executing(w.k) && MayDrop(w.k, w.mutexes[q].holder)
    case Other(s) => Enabled(w.k, s) && Unrelated(w, s)
  }

  /** At most one mutex to a task. */
  ghost predicate Disciplined(w: World, e: Event) {
    e.Take? && e.mutex in w.mutexes && w.mutexes[e.mutex].messages > 0 ==> !HoldsAny(w, w.k.current)
  }

  function ApplyTake(w: World, q: nat): World
    requires q in w.mutexes
  {
    var m := w.mutexes[q];
    if m.messages > 0 then w.(mutexes := w.mutexes[q := Mutex(m.messages - 1, HeldBy(w.k.current))]) else w
  }

  /** The holder inherits before the task queues; without a holder there is nothing to inherit to. */
  function ApplyWait(w: World, q: nat, n: nat): World
    requires q in w.mutexes && w.k.modulus > 0
  {
    var m := w.mutexes[q];
    if m.messages == 0 && m.holder.HeldBy?
    then w.(k := PlaceOnEventList(Inherit(w.k, m.holder.task), q, n))
    else w
  }

  function Woken(k: Kernel, q: nat): Kernel {
    if Waiters(k.items, q) == [] then k else RemoveFromEventList(k, q)
  }

  /** vTaskPriorityDisinherit, which looks for NULL */
  function Dropped(k: Kernel, holder: Holder): Kernel {
    if holder.HeldBy? then Disinherit(k, holder.task) else k
  }

  /** A send to the mutex by any task; a full queue refuses it. */
  function ApplyGive(w: World, q: nat): World
    requires q in w.mutexes
  {
    var m := w.mutexes[q];
    if m.messages >= 1 then w
    else World(Woken(Dropped(w.k, m.holder), q), w.mutexes[q := Mutex(m.messages + 1, Nobody)])
  }

  ghost function Happen(w: World, e: Event): World
    requires MayHappen(w, e)
  {
    match e
    case Create(q) => w.(mutexes := w.mutexes[q := Mutex(1, Nobody)])
    case Take(q) => ApplyTake(w, q)
    case WaitFor(q, n) => ApplyWait(w, q, n)
    case Give(q) => ApplyGive(w, q)
    case Other(s) => w.(k := Apply(w.k, s))
  }

  // ---- tasks that live on ----

  lemma CheckDelayedLiving(k: Kernel, t: Task)
    ensures Generic(CheckDelayed(k).items, t) in {Generic(k.items, t), Ready(Priority(k, t))}
    ensures CheckDelayed(k).priority == k.priority
  {
    hide HeadValue, DueCount, At, RaisedBy, UnblockAll;
    UnblockAllPlaces(k.items, CurrentDelayed(k)[..DueCount(k)], k.priority);
    CheckDelayedFrame(k);
  }

  lemma TickLiving(k: Kernel, t: Task)
    ensures Generic(Tick(k).items, t) in {Generic(k.items, t), Ready(Priority(k, t))}
    ensures Tick(k).priority == k.priority
  {
    hide AdvanceTick, CheckDelayed;
    AdvanceKeepsItems(k);
    CheckDelayedLiving(AdvanceTick(k), t);
  }

  lemma {:induction false} CatchUpLiving(k: Kernel, n: nat, t: Task)
    ensures Generic(CatchUp(k, n).items, t) in {Generic(k.items, t), Ready(Priority(k, t))}
    decreases n
  {
    hide Tick;
    if n > 0 {
      TickLiving(k, t);
      CatchUpLiving(Tick(k), n - 1, t);
    }
  }

  lemma SwitchLiving(k: Kernel, t: Task)
    ensures Generic(SwitchContext(k).items, t) == Generic(k.items, t)
  {
    hide TopNonEmpty;
    var r := SwitchContext(k);
    assert r.items == if k.suspended == 0 then Rotated(k.items, TopNonEmpty(k, k.topReady)) else k.items;
  }

  lemma ResumeLiving(k: Kernel, t: Task)
    requires k.suspended > 0
    ensures Generic(ResumeAll(k).items, t) in {Generic(k.items, t), Ready(Priority(k, t))}
  {
    hide CatchUp, SwitchContext, At, UnblockAll, YieldOnResume, RaisedBy;
    var k1 := k.(suspended := k.suspended - 1);
    var drained := ReadyAll(k1, At(k1.items, Pending));
    UnblockAllPlaces(k.items, At(k.items, Pending), k.priority);
    CatchUpLiving(drained, k.missedTicks, t);
    SwitchLiving(Resumed(k).(missedYield := false), t);
  }

  lemma WakeLiving(k: Kernel, q: nat, t: Task)
    requires Waiters(k.items, q) != []
    ensures Generic(RemoveFromEventList(k, q).items, t) in {Generic(k.items, t), Ready(Priority(k, t))}
  {
    hide At, Generic, WokenItems;
  }

  lemma MoveLiving(k: Kernel, h: Task, t: Task)
    ensures Generic(Inherit(k, h).items, t) == Generic(k.items, t) || Generic(Inherit(k, h).items, t).Ready?
    ensures Generic(Disinherit(k, h).items, t) == Generic(k.items, t) || Generic(Disinherit(k, h).items, t).Ready?
  {
    hide At, Generic, MovedItems;
  }

  /** A task terminates only when it is deleted. */
  lemma StepKeepsPlace(k: Kernel, s: Step, t: Task)
    requires Core(k) && Enabled(k, s) && Living(k, t) && s != DeleteTask(t)
    ensures Generic(Apply(k, s).items, t) !in {Nowhere, Terminating}
  {
    hide Placed, Levelled, Timed, Counted, Populated, At, Tick, ResumeAll, SwitchContext, RemoveFromEventList,
      Inherit, Disinherit, WakePosition, EventPosition, Generic, TakeBoth, TakeGeneric, AppendGeneric;
    match s
    case TickInterrupt => TickLiving(k, t);
    case Resume => ResumeLiving(k, t);
    case Yield => SwitchLiving(k, t);
    case DelayCurrent(n) =>
    case BlockCurrent(q, n) =>
    case WakeFirst(q) => WakeLiving(k, q, t);
    case InheritTo(h) => MoveLiving(k, h, t);
    case DisinheritFrom(h) => MoveLiving(k, h, t);
    case ReapTask => TerminatingHead(k);
    case _ =>
  }

  lemma StepKeepsLiving(k: Kernel, s: Step, t: Task)
    requires Consistent(k) && Enabled(k, s) && k.running && Living(k, t) && s != DeleteTask(t)
    ensures Consistent(Apply(k, s)) && Living(Apply(k, s), t) && Apply(k, s).running
  {
    hide Placed, Levelled, Timed, Counted, Populated, Based, Settled, Apply;
    ApplyKeepsConsistent(k, s);
    StepKeepsPlace(k, s, t);
    StepKeepsRunning(k, s);
  }

  lemma StepKeepsRunning(k: Kernel, s: Step)
    requires Core(k) && Enabled(k, s) && k.running
    ensures Apply(k, s).running
  {
    hide Core, AppendGeneric, MovedItems;
    if Unranking(s) { StepKeepsRanks(k, s); }
  }

  // ---- the invariant ----

  /** The mutex is there or it has a holder, which is a live task. */
  ghost predicate Sound(w: World, q: nat) {
    q in w.mutexes ==>
      match w.mutexes[q].holder
      case Nobody => w.mutexes[q].messages == 1
      case HeldBy(h) => w.mutexes[q].messages == 0 && w.k.running && Living(w.k, h)
  }

  ghost predicate Valid(w: World) {
    Consistent(w.k) && forall q :: Sound(w, q)
  }

  ghost predicate Exclusive(w: World) {
    forall p, q, t :: Holds(w, p, t) && Holds(w, q, t) ==> p == q
  }

  /** A task that holds no mutex has its own priority. */
  ghost predicate AtBase(w: World) {
    forall t :: t in w.k.tasks && !HoldsAny(w, t) ==> Priority(w.k, t) == Value(w.k.basePriority, t)
  }

  /** vTaskPriorityInherit is never handed NULL. */
  lemma InheritSeesHolder(w: World, q: nat)
    requires Valid(w) && q in w.mutexes && w.mutexes[q].messages == 0
    ensures w.mutexes[q].holder.HeldBy? && Living(w.k, w.mutexes[q].holder.task)
  {
    assert Sound(w, q);
  }

  lemma OtherKeepsValid(w: World, s: Step)
    requires Valid(w) && Enabled(w.k, s) && forall q, h :: Holds(w, q, h) ==> s != DeleteTask(h)
    ensures Valid(w.(k := Apply(w.k, s)))
  {
    hide Consistent, Living, Enabled, Apply;
    ApplyKeepsConsistent(w.k, s);
    var r := w.(k := Apply(w.k, s));
    forall q
      ensures Sound(r, q)
    {
      assert Sound(w, q);
      if q in w.mutexes && w.mutexes[q].holder.HeldBy? {
        var h := w.mutexes[q].holder.task;
        assert Holds(w, q, h);
        StepKeepsLiving(w.k, s, h);
      }
    }
  }

  lemma MutexUpdated(w: World, q: nat, m: Mutex)
    requires Valid(w)
    requires m == Mutex(1, Nobody) || (m.holder.HeldBy? && m.messages == 0 && w.k.running && Living(w.k, m.holder.task))
    ensures Valid(w.(mutexes := w.mutexes[q := m]))
  {
    hide Consistent, Living;
    var r := w.(mutexes := w.mutexes[q := m]);
    forall x
      ensures Sound(r, x)
    {
      assert Sound(w, x);
    }
  }

  lemma TakerLives(w: World)
    requires Consistent(w.k) && Executing(w.k)
    ensures Living(w.k, w.k.current)
  {
    hide Placed, Levelled, Timed, Counted, Populated;
  }

  lemma DropKeepsValid(w: World, q: nat, h: Task)
    requires Valid(w) && Holds(w, q, h) && MayDisinherit(w.k, h)
    ensures w.k.running && w.mutexes[q].messages == 0
    ensures var r := World(Disinherit(w.k, h), w.mutexes[q := Mutex(1, Nobody)]); Valid(r) && r.k.running
  {
    hide Consistent, Living, Apply, MayDisinherit;
    assert Sound(w, q);
    ApplyIs(w.k, DisinheritFrom(h));
    OtherKeepsValid(w, DisinheritFrom(h));
    DisinheritFields(w.k, h);
    MutexUpdated(w.(k := Disinherit(w.k, h)), q, Mutex(1, Nobody));
  }

  lemma WokenKeepsValid(w: World, q: nat)
    requires Valid(w) && w.k.running
    ensures Valid(w.(k := Woken(w.k, q)))
  {
    hide Valid, Apply, RemoveFromEventList;
    ApplyIs(w.k, WakeFirst(q));
    if Waiters(w.k.items, q) != [] { OtherKeepsValid(w, WakeFirst(q)); }
  }

  lemma GiveKeepsValid(w: World, q: nat)
    requires Valid(w) && MayHappen(w, Give(q))
    ensures Valid(ApplyGive(w, q)) && (w.mutexes[q].messages == 0 <==> w.mutexes[q].holder.HeldBy?)
  {
    hide Consistent, Living, Disinherit, Woken, MayDisinherit, Executing;
    assert Sound(w, q);
    if w.mutexes[q].holder.HeldBy? {
      var h := w.mutexes[q].holder.task;
      DropKeepsValid(w, q, h);
      WokenKeepsValid(World(Disinherit(w.k, h), w.mutexes[q := Mutex(1, Nobody)]), q);
    }
  }

  /** The holder itself may always give: it waits for nothing. */
  lemma HolderMayGive(w: World, q: nat)
    requires Valid(w) && Executing(w.k) && Holds(w, q, w.k.current)
    ensures MayHappen(w, Give(q))
  {
    hide Placed, Levelled, Timed, Counted, Populated, Based;
    assert Sound(w, q);
  }

  lemma ApplyIs(k: Kernel, s: Step)
    ensures s.DisinheritFrom? ==> Apply(k, s) == Disinherit(k, s.task)
    ensures s.InheritTo? ==> Apply(k, s) == Inherit(k, s.task)
    ensures s.WakeFirst? ==> Apply(k, s) == Woken(k, s.queue)
    ensures s.BlockCurrent? && k.modulus > 0 ==> Apply(k, s) == PlaceOnEventList(k, s.queue, s.ticks)
  {
    hide Disinherit, Inherit, RemoveFromEventList, PlaceOnEventList;
  }

  lemma WaitKeepsValid(w: World, q: nat, n: nat)
    requires Valid(w) && MayHappen(w, WaitFor(q, n))
    ensures w.k.modulus > 0 && Valid(ApplyWait(w, q, n))
  {
    hide Consistent, Living, Apply;
    assert w.k.modulus > 0;
    assert Sound(w, q);
    if w.mutexes[q].holder.HeldBy? {
      var h := w.mutexes[q].holder.task;
      OtherKeepsValid(w, InheritTo(h));
      ApplyIs(w.k, InheritTo(h));
      var k1 := Inherit(w.k, h);
      StillMayBlock(w.k, h, n);
      OtherKeepsValid(w.(k := k1), BlockCurrent(q, n));
      ApplyIs(k1, BlockCurrent(q, n));
    }
  }

  lemma StillMayBlock(k: Kernel, h: Task, n: nat)
    requires MayBlock(k, n)
    ensures MayBlock(Inherit(k, h), n) && Inherit(k, h).modulus > 0
  {
    hide MovedItems, Generic;
  }

  lemma HappenKeepsValid(w: World, e: Event)
    requires Valid(w) && MayHappen(w, e)
    ensures Valid(Happen(w, e))
  {
    hide Consistent, Living, Apply;
    match e
    case Create(q) => MutexUpdated(w, q, Mutex(1, Nobody));
    case Take(q) =>
      assert Sound(w, q);
      if w.mutexes[q].messages > 0 {
        TakerLives(w);
        MutexUpdated(w, q, Mutex(0, HeldBy(w.k.current)));
      }
    case WaitFor(q, n) => WaitKeepsValid(w, q, n);
    case Give(q) => GiveKeepsValid(w, q);
    case Other(s) =>
      forall q, h | Holds(w, q, h)
        ensures s != DeleteTask(h)
      {
        assert HoldsAny(w, h);
      }
      OtherKeepsValid(w, s);
  }

  // ---- priorities ----

  function Higher(a: nat, b: nat): nat { if a < b then b else a }

  /** Does `t` inherit, or drop what it inherited, at this event? */
  ghost predicate Inherits(w: World, e: Event, t: Task) { e.WaitFor? && Holds(w, e.mutex, t) }
  ghost predicate Drops(w: World, e: Event, t: Task) { e.Give? && Holds(w, e.mutex, t) }

  lemma OtherPriorities(k: Kernel, s: Step, t: Task)
    requires Core(k) && Enabled(k, s) && !s.InheritTo? && !s.DisinheritFrom? && t in k.tasks
    ensures var r := Apply(k, s);
            Priority(r, t) == Priority(k, t) && Value(r.basePriority, t) == Value(k.basePriority, t)
  {
    hide Core, AppendGeneric, Capped;
    if Unranking(s) { StepKeepsRanks(k, s); }
  }

  lemma WaitPriorities(w: World, q: nat, n: nat, t: Task)
    requires Valid(w) && MayHappen(w, WaitFor(q, n)) && Holds(w, q, t)
    ensures w.k.modulus > 0
    ensures var r := ApplyWait(w, q, n).k;
            && (forall x :: Priority(r, x) == if x == t then Higher(Priority(w.k, t), Priority(w.k, w.k.current)) else Priority(w.k, x))
            && r.basePriority == w.k.basePriority && r.tasks == w.k.tasks
  {
    hide Consistent, Inherit, Delay, PutEvent, EventPosition;
    assert w.k.modulus > 0;
    assert Sound(w, q);
    InheritFields(w.k, t);
    var k1 := Inherit(w.k, t);
    DelayFrame(k1.(items := PutEvent(k1.items, k1.current, Event(q), EventPosition(k1, q, Value(k1.eventValue, k1.current)))), n);
  }

  lemma GivePriorities(w: World, q: nat)
    requires Valid(w) && MayHappen(w, Give(q))
    ensures var r := ApplyGive(w, q).k;
            && (forall x :: Priority(r, x) == if Holds(w, q, x) then Value(w.k.basePriority, x) else Priority(w.k, x))
            && r.basePriority == w.k.basePriority && r.tasks == w.k.tasks
  {
    hide Consistent, Disinherit, RemoveFromEventList;
    assert Sound(w, q);
    if w.mutexes[q].holder.HeldBy? {
      var h := w.mutexes[q].holder.task;
      DisinheritFields(w.k, h);
      var k1 := Disinherit(w.k, h);
      if Waiters(k1.items, q) != [] { WakeRanks(k1, q); WakeTasks(k1, q); }
    }
  }

  lemma WakeTasks(k: Kernel, q: nat)
    requires Waiters(k.items, q) != []
    ensures RemoveFromEventList(k, q).tasks == k.tasks
  {
    hide WokenItems;
  }

  /** What an event does to the priority of a task that exists. */
  lemma PriorityAfter(w: World, e: Event, t: Task)
    requires Valid(w) && MayHappen(w, e) && t in w.k.tasks
    ensures var r := Happen(w, e).k;
            && Value(r.basePriority, t) == Value(w.k.basePriority, t)
            && Priority(r, t) == if Inherits(w, e, t) then Higher(Priority(w.k, t), Priority(w.k, w.k.current))
                                 else if Drops(w, e, t) then Value(w.k.basePriority, t)
                                 else Priority(w.k, t)
  {
    hide Core, Living, ApplyWait, ApplyGive, Apply, Enabled;
    match e
    case WaitFor(q, n) =>
      assert Sound(w, q);
      if w.mutexes[q].holder.HeldBy? {
        WaitPriorities(w, q, n, w.mutexes[q].holder.task);
      } else {
        assert ApplyWait(w, q, n) == w by { NobodyWaitsFor(w, q, n); }
      }
    case Give(q) => GivePriorities(w, q);
    case Other(s) => OtherPriorities(w.k, s, t);
    case _ =>
  }

  lemma NobodyWaitsFor(w: World, q: nat, n: nat)
    requires q in w.mutexes && w.mutexes[q].holder.Nobody? && w.k.modulus > 0
    ensures ApplyWait(w, q, n) == w
  {
  }

  lemma TasksAfter(w: World, e: Event)
    requires Valid(w) && MayHappen(w, e) && !e.Other?
    ensures Happen(w, e).k.tasks == w.k.tasks
  {
    hide Core, Living, ApplyWait, ApplyGive;
    match e
    case WaitFor(q, n) =>
      assert Sound(w, q);
      if w.mutexes[q].holder.HeldBy? {
        WaitPriorities(w, q, n, w.mutexes[q].holder.task);
      } else {
        NobodyWaitsFor(w, q, n);
      }
    case Give(q) => GivePriorities(w, q);
    case _ =>
  }

  /** A new task starts at its own priority. */
  lemma NewcomerAtBase(k: Kernel, s: Step, t: Task)
    requires Core(k) && Enabled(k, s) && !s.InheritTo? && !s.DisinheritFrom?
    requires t !in k.tasks && t in Apply(k, s).tasks
    ensures Priority(Apply(k, s), t) == Value(Apply(k, s).basePriority, t)
  {
    hide Core, AppendGeneric, Tick, Delay, ResumeAll, SwitchContext, RemoveFromEventList, PlaceOnEventList;
    if Unranking(s) { StepKeepsRanks(k, s); }
  }

  /** Who holds what afterwards. */
  lemma HoldsAfter(w: World, e: Event, q: nat, t: Task)
    requires Valid(w) && MayHappen(w, e)
    ensures Holds(Happen(w, e), q, t) <==>
            if e == Give(q) then false
            else if e == Take(q) && w.mutexes[q].messages > 0 then t == w.k.current
            else Holds(w, q, t)
  {
    hide Consistent, Living, Apply, Enabled, Woken, Disinherit, Inherit, PlaceOnEventList;
    assert Sound(w, q);
    if e.Give? { assert Sound(w, e.mutex); }
  }

  ghost predicate Inv(w: World) { Valid(w) && Exclusive(w) && AtBase(w) }

  lemma StepKeepsExclusive(w: World, e: Event)
    requires Valid(w) && MayHappen(w, e) && Disciplined(w, e) && Exclusive(w)
    ensures Exclusive(Happen(w, e))
  {
    hide Valid, Happen, Enabled;
    forall p, q, t | Holds(Happen(w, e), p, t) && Holds(Happen(w, e), q, t)
      ensures p == q
    {
      HoldsAfter(w, e, p, t);
      HoldsAfter(w, e, q, t);
    }
  }

  lemma StepKeepsAtBase(w: World, e: Event)
    requires Valid(w) && MayHappen(w, e) && AtBase(w)
    ensures AtBase(Happen(w, e))
  {
    hide Valid, Happen, MayHappen;
    var r := Happen(w, e);
    forall t | t in r.k.tasks && !HoldsAny(r, t)
      ensures Priority(r.k, t) == Value(r.k.basePriority, t)
    {
      if t in w.k.tasks {
        PriorityAfter(w, e, t);
        forall q
          ensures Holds(w, q, t) ==> e == Give(q)
        {
          assert !Holds(r, q, t);
          HoldsAfter(w, e, q, t);
          if Holds(w, q, t) { HeldIsTaken(w, q, t); }
        }
        if !Drops(w, e, t) {
          assert !HoldsAny(w, t);
          assert !Inherits(w, e, t);
        }
      } else {
        if !e.Other? { TasksAfter(w, e); }
        NewcomerIn(w, e, t);
      }
    }
  }

  lemma NewcomerIn(w: World, e: Event, t: Task)
    requires Valid(w) && MayHappen(w, e) && e.Other? && t !in w.k.tasks && t in Happen(w, e).k.tasks
    ensures Priority(Happen(w, e).k, t) == Value(Happen(w, e).k.basePriority, t)
  {
    hide Core, Apply;
    NewcomerAtBase(w.k, e.step, t);
  }

  lemma HeldIsTaken(w: World, q: nat, t: Task)
    requires Valid(w) && Holds(w, q, t)
    ensures w.mutexes[q].messages == 0 && Living(w.k, t)
  {
    assert Sound(w, q);
  }

  // ---- whole runs ----

  ghost function Run(w: World, events: seq<Event>): World
    requires MayRun(w, events)
    decreases |events|
  {
    if events == [] then w else Run(Happen(w, events[0]), events[1..])
  }

  ghost predicate MayRun(w: World, events: seq<Event>)
    decreases |events|
  {
    events != [] ==> MayHappen(w, events[0]) && MayRun(Happen(w, events[0]), events[1..])
  }

  ghost predicate RunDisciplined(w: World, events: seq<Event>)
    requires MayRun(w, events)
    decreases |events|
  {
    events != [] ==> Disciplined(w, events[0]) && RunDisciplined(Happen(w, events[0]), events[1..])
  }

  function Boot(modulus: nat, levels: nat): World
    requires modulus > 1
  {
    World(Runs.Boot(modulus, levels), map[])
  }

  /** Over every disciplined run: a mutex is there exactly if nobody holds it, holders are
      live tasks, each holds one mutex, and a task without a mutex runs at its own priority. */
  lemma {:induction false} RunKeepsInv(w: World, events: seq<Event>)
    requires Inv(w) && MayRun(w, events) && RunDisciplined(w, events)
    ensures Inv(Run(w, events))
    decreases |events|
  {
    hide Valid, Exclusive, AtBase, Happen, MayHappen, Disciplined;
    if events != [] {
      HappenKeepsValid(w, events[0]);
      StepKeepsExclusive(w, events[0]);
      StepKeepsAtBase(w, events[0]);
      RunKeepsInv(Happen(w, events[0]), events[1..]);
    }
  }

  /** So does every state that a disciplined run from boot reaches. */
  lemma MutexesFromBoot(modulus: nat, levels: nat, events: seq<Event>)
    requires modulus > 1 && levels > 0
    requires MayRun(Boot(modulus, levels), events) && RunDisciplined(Boot(modulus, levels), events)
    ensures var w := Run(Boot(modulus, levels), events);
            && (forall q :: q in w.mutexes ==> (w.mutexes[q].messages == 0 <==> w.mutexes[q].holder.HeldBy?))
            && (forall q, h :: Holds(w, q, h) ==> Living(w.k, h) && Value(w.k.basePriority, h) <= Priority(w.k, h))
            && AtBase(w)
  {
    hide MayHappen, Happen, Core, RunDisciplined, MayRun, Run, AtBase, Living;
    BootConsistent(modulus, levels);
    assert Inv(Boot(modulus, levels)) by { NothingAtBoot(modulus, levels); }
    RunKeepsInv(Boot(modulus, levels), events);
    var w := Run(Boot(modulus, levels), events);
    forall q, h | Holds(w, q, h)
      ensures Living(w.k, h) && Value(w.k.basePriority, h) <= Priority(w.k, h)
    {
      assert Sound(w, q);
      BasedAt(w.k, h);
    }
    forall q | q in w.mutexes
      ensures w.mutexes[q].messages == 0 <==> w.mutexes[q].holder.HeldBy?
    {
      assert Sound(w, q);
    }
  }

  lemma NothingAtBoot(modulus: nat, levels: nat)
    requires modulus > 1
    ensures AtBase(Boot(modulus, levels))
  {
  }

  /** The holder `h` of mutex `q` runs at priority `p` at least. */
  ghost predicate Boosted(w: World, q: nat, h: Task, p: nat) {
    Holds(w, q, h) && Priority(w.k, h) >= p
  }

  lemma StepKeepsBoost(w: World, e: Event, q: nat, h: Task, p: nat)
    requires Inv(w) && MayHappen(w, e) && Boosted(w, q, h, p) && e != Give(q)
    ensures Boosted(Happen(w, e), q, h, p)
  {
    hide Valid, Happen, MayHappen, Living;
    HeldIsTaken(w, q, h);
    assert h in w.k.tasks by { LivingExists(w.k, h); }
    PriorityAfter(w, e, h);
    HoldsAfter(w, e, q, h);
    assert !Drops(w, e, h);
  }

  lemma LivingExists(k: Kernel, t: Task)
    requires Living(k, t)
    ensures t in k.tasks
  {
  }

  lemma {:induction false} RunKeepsBoost(w: World, events: seq<Event>, q: nat, h: Task, p: nat)
    requires Inv(w) && MayRun(w, events) && RunDisciplined(w, events)
    requires Boosted(w, q, h, p) && Give(q) !in events
    ensures Boosted(Run(w, events), q, h, p)
    decreases |events|
  {
    hide Valid, Exclusive, AtBase, Happen, MayHappen, Disciplined, Boosted;
    if events != [] {
      HappenKeepsValid(w, events[0]);
      StepKeepsExclusive(w, events[0]);
      StepKeepsAtBase(w, events[0]);
      StepKeepsBoost(w, events[0], q, h, p);
      RunKeepsBoost(Happen(w, events[0]), events[1..], q, h, p);
    }
  }

  /**
   * Priority inheritance.  When a task queues on a mutex it has found taken, there is a
   * holder; and from then until that holder gives the mutex back, in every disciplined
   * run, its priority is at least that of the waiter at the time of queueing.
   */
  lemma HolderIsBoosted(w: World, q: nat, n: nat, events: seq<Event>)
    requires Inv(w) && MayHappen(w, WaitFor(q, n)) && w.mutexes[q].messages == 0
    requires MayRun(Happen(w, WaitFor(q, n)), events) && RunDisciplined(Happen(w, WaitFor(q, n)), events)
    requires Give(q) !in events
    ensures w.mutexes[q].holder.HeldBy?
    ensures Boosted(Run(Happen(w, WaitFor(q, n)), events), q, w.mutexes[q].holder.task, Priority(w.k, w.k.current))
  {
    hide Happen, MayHappen, MayRun, Run, RunDisciplined, Valid, Exclusive, AtBase, Living;
    WaitIsFor(w, q, n);
    var e, h, p := WaitFor(q, n), w.mutexes[q].holder, Priority(w.k, w.k.current);
    InheritSeesHolder(w, q);
    var r := Happen(w, e);
    HappenKeepsValid(w, e);
    StepKeepsExclusive(w, e);
    StepKeepsAtBase(w, e);
    LivingExists(w.k, h.task);
    PriorityAfter(w, e, h.task);
    HoldsAfter(w, e, q, h.task);
    RunKeepsBoost(r, events, q, h.task, p);
  }

  lemma WaitIsFor(w: World, q: nat, n: nat)
    requires MayHappen(w, WaitFor(q, n))
    ensures q in w.mutexes && Disciplined(w, WaitFor(q, n))
  {
  }

  // ---- a task that holds two mutexes ----

  /** Giving any mutex back drops the holder to its own priority: the boost owed for
      another mutex survives exactly if the holder did not need it. */
  lemma GivingOneOfTwo(w: World, q: nat, other: nat, h: Task, p: nat)
    requires Valid(w) && Boosted(w, q, h, p) && Holds(w, other, h) && other != q && MayHappen(w, Give(other))
    ensures Boosted(Happen(w, Give(other)), q, h, p) <==> Value(w.k.basePriority, h) >= p
  {
    hide Valid, Happen, MayHappen, Living;
    HeldIsTaken(w, q, h);
    LivingExists(w.k, h);
    PriorityAfter(w, Give(other), h);
    HoldsAfter(w, Give(other), q, h);
  }

  /** A state that satisfies the invariant: task 3 of own priority 1 runs at 3 and holds mutexes
      0 and 1; task 2 of priority 2 waits for 0. */
  function HolderOfTwo(): World {
    World(TwoWaiters().(basePriority := map[1 := 1, 2 := 2, 3 := 1]),
          map[0 := Mutex(0, HeldBy(3)), 1 := Mutex(0, HeldBy(3))])
  }

  lemma HolderOfTwoValid()
    ensures Valid(HolderOfTwo())
  {
    hide Placed, Live, Levelled, Timed, Counted, Populated;
    TwoWaitersInv();
    var w := HolderOfTwo();
    assert Core(w.k) by { CoreIgnoresBase(TwoWaiters(), map[1 := 1, 2 := 2, 3 := 1]); }
    assert Generic(w.k.items, 3) == Ready(3);
  }

  lemma CoreIgnoresBase(k: Kernel, base: map<Task, nat>)
    requires Core(k)
    ensures Core(k.(basePriority := base))
  {
    hide Placed, Live, Levelled;
    TimedIsAboutTimes(k, k.(basePriority := base));
  }

  /** Giving mutex 1 back leaves task 3, still the holder of 0, below its waiter. */
  lemma GivingOneOfTwoExample()
    ensures var w := HolderOfTwo();
            && Valid(w) && MayHappen(w, Give(1)) && Boosted(w, 0, 3, 2)
            && 2 in Waiters(w.k.items, 0) && Priority(w.k, 2) == 2
            && Holds(Happen(w, Give(1)), 0, 3) && Priority(Happen(w, Give(1)).k, 3) == 1
  {
    hide Valid, Happen;
    var w := HolderOfTwo();
    HolderOfTwoValid();
    assert Waiters(w.k.items, 0)[0] == 2;
    assert MayHappen(w, Give(1));
    HoldsAfter(w, Give(1), 0, 3);
    PriorityAfter(w, Give(1), 3);
  }

  // ---- a holder that is deleted ----

  /** Deleting a task leaves every mutex with a live holder or none exactly if it holds none. */
  lemma DeletingHolder(w: World, t: Task)
    requires Valid(w) && Enabled(w.k, DeleteTask(t))
    ensures Valid(w.(k := Delete(w.k, t))) <==> !HoldsAny(w, t)
  {
    hide Consistent, Delete;
    var r := w.(k := Delete(w.k, t));
    if HoldsAny(w, t) {
      var q :| Holds(w, q, t);
      assert Core(w.k) by { CoreOfConsistent(w.k); }
      DeleteKeepsCore(w.k, t);
      assert !Sound(r, q);
    } else {
      OtherKeepsValid(w, DeleteTask(t));
    }
  }

  // ---- a give by a task that is not the holder ----

  /** A state that satisfies the invariant: task 1 of own priority 0 has inherited 1 and holds
      mutex 1; it waits for mutex 0. */
  function QueuedHolder(): World {
    World(TwoWaiters().(basePriority := map[1 := 0, 2 := 2, 3 := 3]),
          map[0 := Mutex(0, HeldBy(3)), 1 := Mutex(0, HeldBy(1))])
  }

  lemma QueuedHolderConsistent()
    ensures var k := QueuedHolder().k;
            && Consistent(k) && k.running && k.current == 3 && 1 in k.tasks && 3 in k.tasks
            && Generic(k.items, 3) == Ready(3) && Generic(k.items, 1) == Delayed(false)
  {
    hide Placed, Live, Levelled, Timed, Counted, Populated;
    TwoWaitersInv();
    CoreIgnoresBase(TwoWaiters(), map[1 := 0, 2 := 2, 3 := 3]);
  }

  lemma QueuedHolderValid()
    ensures Valid(QueuedHolder()) && Exclusive(QueuedHolder()) && Executing(QueuedHolder().k)
  {
    hide Consistent, TwoWaiters;
    QueuedHolderConsistent();
  }

  lemma HeldLives(w: World, q: nat, t: Task)
    requires Valid(w) && Holds(w, q, t)
    ensures Core(w.k) && Living(w.k, t)
  {
    hide Core;
    assert Sound(w, q);
  }

  /** Task 3 gives mutex 1 back for it: task 1 becomes ready and its event item stays queued. */
  lemma ForeignGiveExample()
    ensures var w := QueuedHolder(); var k := Dropped(w.k, w.mutexes[1].holder);
            && Valid(w) && Executing(w.k) && !Holds(w, 1, w.k.current) && !MayHappen(w, Give(1))
            && Generic(k.items, 1) == Ready(0) && EventPlace(k.items, 1) == Event(0) && !Core(k)
  {
    hide Core, Valid, MovedItems, Executing, AppendGeneric;
    QueuedHolderValid();
    var k0 := QueuedHolder().k;
    assert EventPlace(k0.items, 1) == Event(0) && Priority(k0, 1) == 1 && Value(k0.basePriority, 1) == 0;
    assert Core(k0) && Living(k0, 1) by { HeldLives(QueuedHolder(), 1, 1); }
    DisinheritExact(k0, 1);
  }
}
