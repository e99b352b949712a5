/**
 * Whole runs of the scheduler: kernel calls and interrupts as steps in any order, and
 * what holds in every state they reach.
 */
module Runs {
  import opened Seqs
  import opened Items
  import opened Tasks
  import opened Kernel
  import opened Invariant
  import opened Lifecycle
  import opened Delays

  datatype Step =
    | TickInterrupt
    | Suspend
    | Resume
    | Yield
    | MissYield
    | DelayCurrent(ticks: nat)
    | BlockCurrent(queue: nat, ticks: nat)
    | WakeFirst(queue: nat)
    | NewTask(task: Task, priority: nat)
    | StartScheduler(task: Task)
    | DeleteTask(task: Task)
    | ReapTask
    | InheritTo(task: Task)
    | DisinheritFrom(task: Task)

  /** What the callers of each operation owe it. */
  ghost predicate Enabled(k: Kernel, s: Step) {
    match s
    case TickInterrupt => k.running
    case Suspend => k.running
    case Resume => k.running && k.suspended > 0
    case Yield => k.running
    case MissYield => k.running && k.suspended > 0
    case DelayCurrent(n) => MayBlock(k, n)
    case BlockCurrent(q, n) => MayBlock(k, n)
    case WakeFirst(q) => k.running && At(k.items, Event(q)) != []
    case NewTask(t, p) => t !in k.tasks
    case StartScheduler(t) => !k.running && t !in k.tasks
    case DeleteTask(t) => t in k.tasks && Generic(k.items, t) != Terminating && (k.running ==> t != k.idle)
    case ReapTask => k.running && At(k.items, Terminating) != [] && At(k.items, Terminating)[0] != k.current
    case InheritTo(h) => k.running
    case DisinheritFrom(h) => k.running && MayDisinherit(k, h)
  }

  function Apply(k: Kernel, s: Step): Kernel {
    match s
    case TickInterrupt => Tick(k)
    case Suspend => SuspendAll(k)
    case Resume => if k.suspended > 0 then ResumeAll(k) else k
    case Yield => SwitchContext(k)
    case MissYield => k.(missedYield := true)
    case DelayCurrent(n) => if k.modulus > 0 then Delay(k, n) else k
    case BlockCurrent(q, n) => if k.modulus > 0 then PlaceOnEventList(k, q, n) else k
    case WakeFirst(q) => if At(k.items, Event(q)) != [] then RemoveFromEventList(k, q) else k
    case NewTask(t, p) => Create(k, t, p)
    case StartScheduler(t) => Start(k, t)
    case DeleteTask(t) => Delete(k, t)
    case ReapTask => if At(k.items, Terminating) != [] && k.taskCount > 0 && k.deletedCount > 0 then Reap(k) else k
    case InheritTo(h) => Inherit(k, h)
    case DisinheritFrom(h) => Disinherit(k, h)
  }

  function Run(k: Kernel, steps: seq<Step>): Kernel
    decreases |steps|
  {
    if steps == [] then k else Run(Apply(k, steps[0]), steps[1..])
  }

  ghost predicate RunEnabled(k: Kernel, steps: seq<Step>)
    decreases |steps|
  {
    steps != [] ==> Enabled(k, steps[0]) && RunEnabled(Apply(k, steps[0]), steps[1..])
  }

  /** Before any task exists. */
  function Boot(modulus: nat, levels: nat): Kernel
    requires modulus > 1
  {
    Kernel(modulus, levels, {}, Items(map[], map[], map[]), map[], map[], map[], map[],
           0, 0, false, false, 0, 0, modulus - 1, 0, 0, false, 0, 0, 0)
  }

  /** Inherited priorities are never below the assigned ones. */
  ghost predicate Based(k: Kernel) {
    forall t :: Value(k.basePriority, t) <= Priority(k, t)
  }

  /** The invariant of whole runs. */
  ghost predicate Consistent(k: Kernel) {
    Inv(k) && Based(k) && (!k.running ==> k.tick == 0 && k.suspended == 0)
  }

  lemma BootConsistent(modulus: nat, levels: nat)
    requires modulus > 1 && levels > 0
    ensures Consistent(Boot(modulus, levels))
  {
  }

  lemma BasedUpdated(k: Kernel, t: Task, p: nat, r: Kernel)
    requires Based(k) && r.priority == k.priority[t := p]
    requires r.basePriority == k.basePriority[t := p] || (r.basePriority == k.basePriority && Value(k.basePriority, t) <= p)
    ensures Based(r)
  {
    forall x
      ensures Value(r.basePriority, x) <= Priority(r, x)
    {
      assert Priority(r, x) == if x == t then p else Priority(k, x);
      assert x != t ==> Value(r.basePriority, x) == Value(k.basePriority, x);
      assert Value(k.basePriority, x) <= Priority(k, x);
    }
  }

  /** Nothing that priority order depends on has changed. */
  ghost predicate SameRanks(k: Kernel, r: Kernel) {
    && r.eventValue == k.eventValue && r.priority == k.priority && r.basePriority == k.basePriority
    && r.levels == k.levels && r.tasks <= k.tasks && r.running == k.running && r.idle == k.idle
  }

  /** Which steps change no event value. */
  predicate Unranking(s: Step) {
    !s.NewTask? && !s.StartScheduler? && !s.InheritTo? && !s.DisinheritFrom?
  }

  lemma TickRanks(k: Kernel)
    requires Core(k)
    ensures SameRanks(k, Tick(k))
  {
    hide Tick;
    BoundedOfCore(k);
    if k.suspended == 0 { TickFrame(k); } else { TickWhileSuspended(k); }
  }

  lemma WakeRanks(k: Kernel, q: nat)
    requires At(k.items, Event(q)) != []
    ensures SameRanks(k, RemoveFromEventList(k, q))
  {
    hide WokenItems;
  }

  lemma SwitchRanks(k: Kernel)
    ensures SameRanks(k, SwitchContext(k))
  {
    hide TopNonEmpty, Rotated;
  }

  lemma StepKeepsRanks(k: Kernel, s: Step)
    requires Core(k) && Enabled(k, s) && Unranking(s)
    ensures SameRanks(k, Apply(k, s))
  {
    hide Core, Tick, Delay, Resumed, SwitchContext, RemoveFromEventList, TakeBoth, AppendGeneric, TakeGeneric, PutEvent;
    match s
    case TickInterrupt => TickRanks(k);
    case Resume =>
      ResumedKeepsCore(k);
      SwitchRanks(Resumed(k).(missedYield := false));
    case Yield => SwitchRanks(k);
    case DelayCurrent(n) => DelayFrame(k, n);
    case BlockCurrent(q, n) =>
      var p := EventPosition(k, q, Value(k.eventValue, k.current));
      DelayFrame(k.(items := PutEvent(k.items, k.current, Event(q), p)), n);
    case WakeFirst(q) => WakeRanks(k, q);
    case _ =>
  }

  lemma TickWhileSuspended(k: Kernel)
    requires k.suspended > 0
    ensures Tick(k) == k.(missedTicks := k.missedTicks + 1)
  {
  }

  lemma ApplyKeepsBased(k: Kernel, s: Step)
    requires Based(k) && Enabled(k, s) && Core(k)
    ensures Based(Apply(k, s))
  {
    hide Placed, Live, Levelled, Timed, Counted, Populated, Based;
    match s
    case NewTask(t, p) => BasedUpdated(k, t, Capped(k.levels, p), Create(k, t, p));
    case StartScheduler(t) => BasedUpdated(k, t, Capped(k.levels, 0), Start(k, t));
    case InheritTo(h) =>
      BasedAt(k, h);
      if Priority(k, h) < Priority(k, k.current) { BasedUpdated(k, h, Priority(k, k.current), Inherit(k, h)); }
    case DisinheritFrom(h) =>
      if Priority(k, h) != Value(k.basePriority, h) { BasedUpdated(k, h, Value(k.basePriority, h), Disinherit(k, h)); }
    case _ =>
      StepKeepsRanks(k, s);
      BasedIsAboutPriorities(k, Apply(k, s));
  }

  lemma BasedAt(k: Kernel, t: Task)
    requires Based(k)
    ensures Value(k.basePriority, t) <= Priority(k, t)
  {
  }

  lemma BasedIsAboutPriorities(k: Kernel, r: Kernel)
    requires Based(k) && r.priority == k.priority && r.basePriority == k.basePriority
    ensures Based(r)
  {
    forall x
      ensures Value(r.basePriority, x) <= Priority(r, x)
    {
      BasedAt(k, x);
    }
  }

  lemma ApplyKeepsCore(k: Kernel, s: Step)
    requires Core(k) && Based(k) && Enabled(k, s) && (!k.running ==> k.tick == 0)
    ensures Core(Apply(k, s))
  {
    hide Core;
    match s
    case TickInterrupt => TickKeepsCore(k);
    case Suspend => SuspendKeepsCore(k);
    case Resume =>
      ResumedKeepsCore(k);
      CoreIgnoresMisses(Resumed(k), Resumed(k).missedTicks, false);
      if YieldOnResume(k) { SwitchKeepsCore(Resumed(k).(missedYield := false)); }
    case Yield => SwitchKeepsCore(k);
    case MissYield => CoreIgnoresMisses(k, k.missedTicks, true);
    case DelayCurrent(n) => DelayKeepsCore(k, n);
    case BlockCurrent(q, n) => PlaceOnEventListKeepsCore(k, q, n);
    case WakeFirst(q) => RemoveFromEventListKeepsCore(k, q);
    case NewTask(t, p) => CreateKeepsCore(k, t, p);
    case StartScheduler(t) => StartKeepsCore(k, t);
    case DeleteTask(t) => DeleteKeepsCore(k, t);
    case ReapTask => ReapKeepsCore(k);
    case InheritTo(h) => InheritKeepsCore(k, h);
    case DisinheritFrom(h) =>
      BasedAt(k, h);
      PrioritiesBounded(k, h);
      DisinheritKeepsCore(k, h);
  }

  lemma SuspendKeepsCore(k: Kernel)
    requires Core(k)
    ensures Core(SuspendAll(k))
  {
    hide Placed, Levelled;
  }

  ghost predicate SameClock(k: Kernel, r: Kernel) {
    && r.tick == k.tick && r.overflows == k.overflows && r.modulus == k.modulus
    && r.missedTicks == k.missedTicks && r.missedYield == k.missedYield && r.suspended == k.suspended
  }

  /** Most steps leave the clock and what was missed alone. */
  lemma BlockingKeepsClock(k: Kernel, s: Step)
    requires k.modulus > 0 && (s.DelayCurrent? || s.BlockCurrent?)
    ensures SameClock(k, Apply(k, s)) && Apply(k, s).running == k.running
  {
    hide Delay, PutEvent, EventPosition;
    match s
    case DelayCurrent(n) => DelayFrame(k, n);
    case BlockCurrent(q, n) =>
      var p := EventPosition(k, q, Value(k.eventValue, k.current));
      DelayFrame(k.(items := PutEvent(k.items, k.current, Event(q), p)), n);
  }

  lemma WakingKeepsClock(k: Kernel, q: nat)
    requires At(k.items, Event(q)) != []
    ensures SameClock(k, RemoveFromEventList(k, q)) && RemoveFromEventList(k, q).running == k.running
  {
    hide WokenItems, At, Raised;
  }

  lemma DeletionKeepsClock(k: Kernel, s: Step)
    requires s.DeleteTask? || s.ReapTask? || s.NewTask?
    ensures SameClock(k, Apply(k, s)) && Apply(k, s).running == k.running
  {
    hide TakeBoth, TakeGeneric, AppendGeneric, At;
    match s
    case ReapTask =>
      if At(k.items, Terminating) != [] && k.taskCount > 0 && k.deletedCount > 0 {
        assert Apply(k, s) == Reap(k);
      }
    case _ =>
  }

  lemma InheritKeepsClock(k: Kernel, h: Task)
    ensures SameClock(k, Inherit(k, h)) && Inherit(k, h).running == k.running
  {
    hide MovedItems, Generic, EventRank;
  }

  lemma DisinheritKeepsClock(k: Kernel, h: Task)
    ensures SameClock(k, Disinherit(k, h)) && Disinherit(k, h).running == k.running
  {
    hide MovedItems, EventRank;
  }

  function TickOf(s: Step): nat { if s.TickInterrupt? then 1 else 0 }

  /** No step loses or invents a tick, and none leaves misses behind with the scheduler free. */
  lemma ApplyConservesTicks(k: Kernel, s: Step)
    requires Consistent(k) && Enabled(k, s)
    ensures var r := Apply(k, s);
            && Clock(r) + r.missedTicks == Clock(k) + k.missedTicks + TickOf(s)
            && Clock(k) <= Clock(r)
            && Settled(r)
            && (!r.running ==> r.tick == 0 && r.suspended == 0)
  {
    hide Placed, Live, Levelled, TimedFrom, Counted, Populated;
    match s
    case TickInterrupt => TickConserves(k);
    case Suspend => SuspendSettles(k);
    case Resume => ResumeConserves(k);
    case Yield => YieldSettles(k);
    case MissYield => MissSettles(k);
    case StartScheduler(t) => StartSettles(k, t);
    case WakeFirst(q) => WakingKeepsClock(k, q);
    case DeleteTask(t) => DeletionKeepsClock(k, s);
    case ReapTask => DeletionKeepsClock(k, s);
    case NewTask(t, p) => DeletionKeepsClock(k, s);
    case InheritTo(h) => InheritKeepsClock(k, h);
    case DisinheritFrom(h) => DisinheritKeepsClock(k, h);
    case _ => BlockingKeepsClock(k, s);
  }

  lemma TickConserves(k: Kernel)
    requires Consistent(k) && k.running
    ensures var r := Apply(k, TickInterrupt);
            Clock(r) + r.missedTicks == Clock(k) + k.missedTicks + 1 && Clock(k) <= Clock(r) && Settled(r) && r.running
  {
    hide Placed, Live, Levelled, TimedFrom, Counted, Populated, Tick;
    if k.suspended == 0 { TickFrame(k); } else { TickWhileSuspended(k); }
  }

  lemma SuspendSettles(k: Kernel)
    ensures var r := Apply(k, Suspend); Clock(r) == Clock(k) && r.missedTicks == k.missedTicks && Settled(r) && r.running == k.running
  {
  }

  lemma MissSettles(k: Kernel)
    requires k.suspended > 0
    ensures var r := Apply(k, MissYield); Clock(r) == Clock(k) && r.missedTicks == k.missedTicks && Settled(r) && r.running == k.running
  {
  }

  lemma YieldSettles(k: Kernel)
    requires Settled(k)
    ensures var r := Apply(k, Yield); Clock(r) == Clock(k) && r.missedTicks == k.missedTicks && Settled(r) && r.running == k.running
  {
  }

  lemma StartSettles(k: Kernel, t: Task)
    requires Settled(k) && k.tick == 0
    ensures var r := Apply(k, StartScheduler(t)); Clock(r) == Clock(k) && r.missedTicks == k.missedTicks && Settled(r) && r.running
  {
  }

  lemma ResumeConserves(k: Kernel)
    requires Consistent(k) && k.running && k.suspended > 0
    ensures var r := Apply(k, Resume);
            Clock(r) + r.missedTicks == Clock(k) + k.missedTicks && Clock(k) <= Clock(r) && Settled(r) && r.running
  {
    hide Placed, Live, Levelled, TimedFrom, Counted, Populated, Resumed, SwitchContext;
    ResumedKeepsCore(k);
    TasksCounted(k);
    var r := Resumed(k).(missedYield := false);
    SwitchClock(r);
  }

  lemma SwitchClock(k: Kernel)
    ensures var r := SwitchContext(k);
            && r.tick == k.tick && r.overflows == k.overflows && r.modulus == k.modulus && r.missedTicks == k.missedTicks
            && r.suspended == k.suspended && r.running == k.running
            && r.missedYield == (k.missedYield || k.suspended > 0)
  {
    hide TopNonEmpty, Rotated, Ring;
  }

  lemma ApplyKeepsConsistent(k: Kernel, s: Step)
    requires Consistent(k) && Enabled(k, s)
    ensures Consistent(Apply(k, s))
  {
    hide Core, Based, Apply, Enabled;
    ApplyKeepsCore(k, s);
    ApplyKeepsBased(k, s);
    ApplyConservesTicks(k, s);
  }

  /** Every state that a run from boot reaches satisfies the invariant, and its clock and
      missed ticks together have counted every tick interrupt of the run exactly once. */
  lemma {:induction false} RunKeepsConsistent(k: Kernel, steps: seq<Step>)
    requires Consistent(k) && RunEnabled(k, steps)
    ensures Consistent(Run(k, steps))
    ensures Clock(Run(k, steps)) + Run(k, steps).missedTicks == Clock(k) + k.missedTicks + Ticks(steps)
    decreases |steps|
  {
    hide Consistent, Apply, Enabled, Clock;
    if steps != [] {
      ApplyKeepsConsistent(k, steps[0]);
      ApplyConservesTicks(k, steps[0]);
      RunKeepsConsistent(Apply(k, steps[0]), steps[1..]);
    }
  }

  function Ticks(steps: seq<Step>): nat
    decreases |steps|
  {
    if steps == [] then 0 else TickOf(steps[0]) + Ticks(steps[1..])
  }
}
