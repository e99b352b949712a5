/**
 * Two promises of the scheduler over whole runs: a sleeping task is readied exactly
 * when its time has come, and a yield asked for during a suspension is honoured.
 */
module Wakeups {
  import opened Seqs
  import opened Items
  import opened Tasks
  import opened Kernel
  import opened Invariant
  import opened Lifecycle
  import opened Delays
  import opened Runs

  /** Task `t` waits for nothing but time `w`: until then it is asleep, and from then on ready. */
  ghost predicate OnTime(k: Kernel, t: Task, w: nat) {
    && EventPlace(k.items, t) == Nowhere
    && if Clock(k) < w then Generic(k.items, t).Delayed? && WakeTime(k, t) == w
       else Generic(k.items, t) == Ready(Priority(k, t))
  }

  // ---- ticks ----

  lemma TickEvents(k: Kernel, t: Task)
    requires Core(k) && k.suspended == 0 && EventPlace(k.items, t) == Nowhere
    ensures EventPlace(Tick(k).items, t) == Nowhere
  {
    hide Live, Levelled, Counted, Populated, Placed, At;
    AdvanceTickKeeps(k);
    CheckDelayedReadies(AdvanceTick(k));
    UnblockAllPlaces(k.items, DueTasks(AdvanceTick(k)), k.priority);
  }

  lemma TickOnTime(k: Kernel, t: Task, w: nat)
    requires Core(k) && k.suspended == 0 && OnTime(k, t, w)
    ensures OnTime(Tick(k), t, w)
  {
    hide Placed, Live, Levelled, TimedFrom, Counted, Populated, WakeTime, Tick, Clock;
    TickFrame(k);
    TickOfTask(k, t);
    TickEvents(k, t);
  }

  lemma {:induction false} CatchUpOnTime(k: Kernel, n: nat, t: Task, w: nat)
    requires Core(k) && k.suspended == 0 && OnTime(k, t, w)
    ensures OnTime(CatchUp(k, n), t, w)
    decreases n
  {
    hide Core, OnTime, Tick;
    if n > 0 {
      TickOfCore(k);
      TickOnTime(k, t, w);
      CatchUpOnTime(Tick(k), n - 1, t, w);
    }
  }

  // ---- the other steps ----

  /** What time and place of `t` depend on. */
  lemma OnTimeFrame(k: Kernel, r: Kernel, t: Task, w: nat)
    requires OnTime(k, t, w) && Clock(k) < w && SameClock(k, r) && r.second == k.second
    requires Generic(r.items, t) == Generic(k.items, t) && EventPlace(r.items, t) == Nowhere && Wake(r, t) == Wake(k, t)
    ensures OnTime(r, t, w)
  {
  }

  lemma ResumedOnTime(k: Kernel, t: Task, w: nat)
    requires Core(k) && k.running && k.suspended > 0 && OnTime(k, t, w) && Clock(k) < w
    ensures OnTime(Resumed(k), t, w)
  {
    TasksCounted(k);
    if k.suspended == 1 {
      hide Core, OnTime, CatchUp;
      DrainedKeepsCore(k);
      DrainedOnTime(k, t, w);
      CatchUpKeepsCore(Drained(k), k.missedTicks);
      CatchUpOnTime(Drained(k), k.missedTicks, t, w);
      OnTimeIgnoresMisses(CatchUp(Drained(k), k.missedTicks), 0, k.missedYield, t, w);
    }
  }

  lemma DrainedOnTime(k: Kernel, t: Task, w: nat)
    requires Core(k) && k.suspended == 1 && OnTime(k, t, w) && Clock(k) < w
    ensures OnTime(Drained(k), t, w)
  {
    hide Placed, Levelled, Timed, Counted, Populated, At, RaisedBy, UnblockAll;
    PendingMembers(k);
    UnblockAllPlaces(k.items, At(k.items, Pending), k.priority);
  }

  lemma OnTimeIgnoresMisses(k: Kernel, ticks: nat, missed: bool, t: Task, w: nat)
    requires OnTime(k, t, w)
    ensures OnTime(k.(missedTicks := ticks, missedYield := missed), t, w)
  {
  }

  lemma SwitchOnTime(k: Kernel, t: Task, w: nat)
    requires OnTime(k, t, w)
    ensures OnTime(SwitchContext(k), t, w)
  {
    hide TopNonEmpty;
    SwitchClock(k);
  }

  lemma DelayOnTime(k: Kernel, n: nat, t: Task, w: nat)
    requires Core(k) && MayBlock(k, n) && OnTime(k, t, w) && Clock(k) < w
    ensures OnTime(Delay(k, n), t, w)
  {
    hide Placed, Live, Levelled, TimedFrom, Counted, Populated, At, Clock, WakeTime;
    DelayPlaced(k, n);
    DelayTimes(k, n);
  }

  lemma BlockOnTime(k: Kernel, q: nat, n: nat, t: Task, w: nat)
    requires Core(k) && MayBlock(k, n) && OnTime(k, t, w) && Clock(k) < w
    ensures OnTime(PlaceOnEventList(k, q, n), t, w)
  {
    hide Placed, Live, Levelled, TimedFrom, Counted, Populated, At, EventPosition, Delay;
    var p := EventPosition(k, q, Value(k.eventValue, k.current));
    var k1 := k.(items := PutEvent(k.items, k.current, Event(q), p));
    PutEventPlaced(k.items, k.current, Event(q), p) by { CurrentWaitsForNothing(k, n); }
    DelayPlaced(k1, n);
    DelayTimes(k1, n);
    DelayFrame(k1, n);
  }

  lemma CurrentWaitsForNothing(k: Kernel, n: nat)
    requires Core(k) && MayBlock(k, n)
    ensures Placed(k.items) && EventPlace(k.items, k.current) == Nowhere
  {
  }

  lemma WakeOnTime(k: Kernel, q: nat, t: Task, w: nat)
    requires Core(k) && At(k.items, Event(q)) != [] && OnTime(k, t, w) && Clock(k) < w
    ensures OnTime(RemoveFromEventList(k, q), t, w)
  {
    hide Placed, Live, Levelled, TimedFrom, Counted, Populated, OnTime, WokenItems;
    FirstWaiter(k, q);
    WakingKeepsClock(k, q);
    var r := RemoveFromEventList(k, q);
    SleepsWithoutEvent(k, t, w);
    OnTimeFrame(k, r, t, w);
  }

  lemma SleepsWithoutEvent(k: Kernel, t: Task, w: nat)
    requires OnTime(k, t, w) && Clock(k) < w
    ensures EventPlace(k.items, t) == Nowhere && Generic(k.items, t).Delayed?
  {
  }

  lemma LifecycleOnTime(k: Kernel, s: Step, t: Task, w: nat)
    requires Core(k) && Enabled(k, s) && OnTime(k, t, w) && Clock(k) < w
    requires s.NewTask? || s.ReapTask? || (s.DeleteTask? && s.task != t)
    ensures OnTime(Apply(k, s), t, w)
  {
    hide Placed, Levelled, TimedFrom, Populated, OnTime, At;
    DeletionKeepsClock(k, s);
    SleepsWithoutEvent(k, t, w);
    var r := Apply(k, s);
    match s
    case NewTask(x, p) => OnTimeFrame(k, r, t, w);
    case DeleteTask(x) => OnTimeFrame(k, r, t, w);
    case ReapTask =>
      TerminatingHead(k);
      assert r == Reap(k);
      OnTimeFrame(k, r, t, w);
  }

  lemma StartOnTime(k: Kernel, x: Task, t: Task, w: nat)
    requires Core(k) && x !in k.tasks && k.tick == 0 && OnTime(k, t, w) && Clock(k) < w
    ensures OnTime(Start(k, x), t, w)
  {
    hide Placed, Levelled, TimedFrom, Populated, At;
  }

  lemma InheritOnTime(k: Kernel, h: Task, t: Task, w: nat)
    requires OnTime(k, t, w) && Clock(k) < w
    ensures OnTime(Inherit(k, h), t, w)
  {
    hide OnTime, MovedItems;
    InheritKeepsClock(k, h);
    SleepsWithoutEvent(k, t, w);
    OnTimeFrame(k, Inherit(k, h), t, w);
  }

  lemma DisinheritOnTime(k: Kernel, h: Task, t: Task, w: nat)
    requires OnTime(k, t, w) && Clock(k) < w && h != t
    ensures OnTime(Disinherit(k, h), t, w)
  {
    hide OnTime, MovedItems;
    DisinheritKeepsClock(k, h);
    SleepsWithoutEvent(k, t, w);
    OnTimeFrame(k, Disinherit(k, h), t, w);
  }

  /** A give of its mutex by another task readies a sleeping holder before its time exactly
      if it drops its priority. */
  lemma ForeignGiveWakes(k: Kernel, t: Task, w: nat)
    requires OnTime(k, t, w) && Clock(k) < w
    ensures OnTime(Disinherit(k, t), t, w) <==> Priority(k, t) == Value(k.basePriority, t)
  {
    hide MovedItems;
    DisinheritKeepsClock(k, t);
    if Priority(k, t) == Value(k.basePriority, t) { assert Disinherit(k, t) == k; }
  }

  // ---- runs ----

  /** The step neither deletes task `t` nor drops its priority for it. */
  predicate LeavesAlone(s: Step, t: Task) { s != DeleteTask(t) && s != DisinheritFrom(t) }

  lemma StepOnTime(k: Kernel, s: Step, t: Task, w: nat)
    requires Consistent(k) && Enabled(k, s) && OnTime(k, t, w) && Clock(k) < w && LeavesAlone(s, t)
    ensures OnTime(Apply(k, s), t, w)
  {
    hide Core, OnTime, Based;
    match s
    case TickInterrupt =>
      if k.suspended == 0 { TickOnTime(k, t, w); }
      else { OnTimeIgnoresMisses(k, k.missedTicks + 1, k.missedYield, t, w); }
    case Suspend => SleepsWithoutEvent(k, t, w); SuspendOnTime(k, t, w);
    case Resume =>
      ResumedOnTime(k, t, w);
      var r := Resumed(k);
      OnTimeIgnoresMisses(r, r.missedTicks, false, t, w);
      if YieldOnResume(k) { SwitchOnTime(r.(missedYield := false), t, w); }
    case Yield => SwitchOnTime(k, t, w);
    case MissYield => OnTimeIgnoresMisses(k, k.missedTicks, true, t, w);
    case DelayCurrent(n) => DelayOnTime(k, n, t, w);
    case BlockCurrent(q, n) => BlockOnTime(k, q, n, t, w);
    case WakeFirst(q) => WakeOnTime(k, q, t, w);
    case StartScheduler(x) => StartOnTime(k, x, t, w);
    case InheritTo(h) => InheritOnTime(k, h, t, w);
    case DisinheritFrom(h) => DisinheritOnTime(k, h, t, w);
    case _ => LifecycleOnTime(k, s, t, w);
  }

  lemma SuspendOnTime(k: Kernel, t: Task, w: nat)
    requires OnTime(k, t, w)
    ensures OnTime(SuspendAll(k), t, w)
  {
  }

  lemma {:induction false} ClockMoves(k: Kernel, steps: seq<Step>)
    requires Consistent(k) && RunEnabled(k, steps)
    ensures Clock(k) <= Clock(Run(k, steps))
    decreases |steps|
  {
    hide Consistent, Clock, Apply, Enabled;
    if steps != [] {
      ApplyKeepsConsistent(k, steps[0]);
      ApplyConservesTicks(k, steps[0]);
      ClockMoves(Apply(k, steps[0]), steps[1..]);
    }
  }

  /** In every run in which it is left alone, a task that sleeps until time `w` is asleep in
      every state before that time. */
  lemma {:induction false} SleepsUntilDue(k: Kernel, steps: seq<Step>, t: Task, w: nat)
    requires Consistent(k) && RunEnabled(k, steps) && forall s :: s in steps ==> LeavesAlone(s, t)
    requires OnTime(k, t, w) && Clock(Run(k, steps)) < w
    ensures OnTime(Run(k, steps), t, w)
    decreases |steps|
  {
    hide Consistent, Clock, Apply, Enabled, OnTime;
    if steps != [] {
      ClockMoves(k, steps);
      StepOnTime(k, steps[0], t, w);
      ApplyKeepsConsistent(k, steps[0]);
      SleepsUntilDue(Apply(k, steps[0]), steps[1..], t, w);
    }
  }

  lemma {:induction false} RunSplit(k: Kernel, steps: seq<Step>, s: Step)
    ensures Run(k, steps + [s]) == Apply(Run(k, steps), s)
    ensures RunEnabled(k, steps + [s]) <==> RunEnabled(k, steps) && Enabled(Run(k, steps), s)
    decreases |steps|
  {
    hide Apply, Enabled;
    if steps == [] {
      assert [s][1..] == [];
    } else {
      assert (steps + [s])[1..] == steps[1..] + [s];
      RunSplit(Apply(k, steps[0]), steps[1..], s);
    }
  }

  /**
   * A task that delays itself by n ticks is asleep until exactly n more ticks have been
   * processed, and the step that processes the n-th readies it; unless it is deleted or a
   * mutex that it holds is given back for it, whatever else happens.
   */
  lemma DelayIsExact(k: Kernel, n: nat, steps: seq<Step>, last: Step)
    requires Consistent(k) && MayBlock(k, n) && RunEnabled(Delay(k, n), steps + [last])
    requires forall s :: s in steps + [last] ==> LeavesAlone(s, k.current)
    requires Clock(Run(Delay(k, n), steps)) < Clock(k) + n
    ensures var before, after, t := Run(Delay(k, n), steps), Run(Delay(k, n), steps + [last]), k.current;
            && Generic(before.items, t).Delayed? && WakeTime(before, t) == Clock(k) + n
            && if Clock(after) < Clock(k) + n then Generic(after.items, t).Delayed?
               else Generic(after.items, t) == Ready(Priority(after, t))
  {
    hide Consistent, Clock, Apply, Enabled, Core;
    var d, t, w := Delay(k, n), k.current, Clock(k) + n;
    ApplyKeepsConsistent(k, DelayCurrent(n)) by { DelayIsAStep(k, n); }
    DelayIsAStep(k, n);
    assert OnTime(d, t, w) by { DelayedOnTime(k, n); }
    RunSplit(d, steps, last);
    assert (forall s :: s in steps ==> s in steps + [last]) && last in steps + [last];
    SleepsUntilDue(d, steps, t, w);
    RunKeepsConsistent(d, steps);
    StepOnTime(Run(d, steps), last, t, w);
  }

  lemma DelayIsAStep(k: Kernel, n: nat)
    requires MayBlock(k, n)
    ensures Enabled(k, DelayCurrent(n)) && Apply(k, DelayCurrent(n)) == Delay(k, n)
  {
  }

  lemma DelayedOnTime(k: Kernel, n: nat)
    requires Consistent(k) && MayBlock(k, n)
    ensures OnTime(Delay(k, n), k.current, Clock(k) + n)
  {
    hide Placed, Levelled, TimedFrom, At, WakeTime, Delay, Clock;
    DelayPlaced(k, n);
    DelayTimes(k, n);
  }

  // ---- yields asked for while the scheduler is suspended ----

  /** A task of the highest priority that is ready is running. */
  ghost predicate RunsHighest(k: Kernel) {
    && Generic(k.items, k.current) == Ready(Priority(k, k.current))
    && forall t :: Generic(k.items, t).Ready? ==> Priority(k, t) <= Priority(k, k.current)
  }

  /** The steps of a run leave the scheduler suspended. */
  ghost predicate StaysSuspended(k: Kernel, steps: seq<Step>)
    decreases |steps|
  {
    k.suspended > 0 && (steps != [] ==> StaysSuspended(Apply(k, steps[0]), steps[1..]))
  }

  lemma MissIsKept(k: Kernel, s: Step)
    requires Consistent(k) && Enabled(k, s) && k.suspended > 0 && k.missedYield && Apply(k, s).suspended > 0
    ensures Apply(k, s).missedYield && (k.running ==> Apply(k, s).running)
  {
    hide Placed, Live, Levelled, TimedFrom, Counted, Populated, Tick, Resumed, Delay;
    match s
    case TickInterrupt => TickWhileSuspended(k);
    case Resume =>
      ResumedKeepsCore(k);
      SwitchClock(Resumed(k).(missedYield := false));
    case Yield => SwitchClock(k);
    case WakeFirst(q) => WakingKeepsClock(k, q);
    case DeleteTask(t) => DeletionKeepsClock(k, s);
    case ReapTask => DeletionKeepsClock(k, s);
    case NewTask(t, p) => DeletionKeepsClock(k, s);
    case InheritTo(h) => InheritKeepsClock(k, h);
    case DisinheritFrom(h) => DisinheritKeepsClock(k, h);
    case DelayCurrent(n) => BlockingKeepsClock(k, s);
    case BlockCurrent(q, n) => BlockingKeepsClock(k, s);
    case _ =>
  }

  /** A yield asked for while the scheduler is suspended takes effect when the outermost
      suspension ends: then a ready task of the highest priority runs. */
  lemma {:induction false} MissedYieldHonoured(k: Kernel, steps: seq<Step>)
    requires Consistent(k) && k.running && RunEnabled(k, [Yield] + steps) && StaysSuspended(k, [Yield] + steps)
    requires Run(k, [Yield] + steps).suspended == 1
    ensures RunsHighest(ResumeAll(Run(k, [Yield] + steps)))
  {
    hide Consistent, Core, Apply;
    var k1 := Apply(k, Yield);
    assert ([Yield] + steps)[1..] == steps && ([Yield] + steps)[0] == Yield;
    YieldIsMissed(k);
    ApplyKeepsConsistent(k, Yield);
    MissIsCarried(k1, steps);
    RunKeepsConsistent(k1, steps);
    ResumeHonours(Run(k1, steps));
  }

  lemma YieldIsMissed(k: Kernel)
    requires k.suspended > 0 && k.running
    ensures var r := Apply(k, Yield); r.missedYield && r.suspended > 0 && r.running
  {
  }

  lemma {:induction false} MissIsCarried(k: Kernel, steps: seq<Step>)
    requires Consistent(k) && k.running && RunEnabled(k, steps) && k.missedYield && StaysSuspended(k, steps)
    ensures Run(k, steps).missedYield && Run(k, steps).running
    decreases |steps|
  {
    hide Consistent, Apply;
    if steps != [] {
      assert StaysSuspended(Apply(k, steps[0]), steps[1..]);
      MissIsKept(k, steps[0]);
      ApplyKeepsConsistent(k, steps[0]);
      MissIsCarried(Apply(k, steps[0]), steps[1..]);
    }
  }

  lemma ResumeHonours(k: Kernel)
    requires Consistent(k) && k.running && k.suspended == 1 && k.missedYield
    ensures RunsHighest(ResumeAll(k))
  {
    hide Placed, Live, Levelled, Timed, Counted, Populated, Resumed, SwitchContext;
    TasksCounted(k);
    ResumedKeepsCore(k);
    var r := Resumed(k);
    CoreIgnoresMisses(r, r.missedTicks, false);
    SwitchSelectsHighest(r.(missedYield := false));
  }

  /** What the pending list holds becomes ready, and no other task does without a missed tick. */
  lemma ResumedReadies(k: Kernel, t: Task)
    requires Core(k) && k.running && k.suspended == 1 && k.missedTicks == 0
    ensures Generic(Resumed(k).items, t).Ready? ==> Generic(k.items, t).Ready? || t in At(k.items, Pending)
    ensures Generic(k.items, t).Ready? ==> Generic(Resumed(k).items, t) == Generic(k.items, t)
  {
    hide Placed, Levelled, Timed, At, UnblockAll;
    TasksCounted(k);
    PendingMembers(k);
    UnblockAllPlaces(k.items, At(k.items, Pending), k.priority);
  }

  /** The outermost resume yields when it has to: if nothing that was ready outranked the
      running task before it, nothing does afterwards. */
  lemma ResumeKeepsHighest(k: Kernel)
    requires Consistent(k) && k.running && k.suspended == 1 && RunsHighest(k)
    ensures RunsHighest(ResumeAll(k))
  {
    hide Core, Based, Resumed, SwitchContext, SomeOutranks;
    ResumedKeepsCore(k);
    var r := Resumed(k);
    if YieldOnResume(k) {
      CoreIgnoresMisses(r, r.missedTicks, false);
      assert r.suspended == 0 && r.running;
      SwitchSelectsHighest(r.(missedYield := false));
    } else {
      TasksCounted(k);
      assert !SomeOutranks(k.priority, At(k.items, Pending), k.current);
      NobodyOutranks(k);
    }
  }

  lemma NobodyOutranks(k: Kernel)
    requires Core(k) && k.running && k.suspended == 1 && k.missedTicks == 0 && RunsHighest(k)
    requires !SomeOutranks(k.priority, At(k.items, Pending), k.current)
    ensures RunsHighest(Resumed(k))
  {
    hide Core, Resumed;
    ResumedKeepsCore(k);
    forall t | Generic(Resumed(k).items, t).Ready?
      ensures Priority(k, t) <= Priority(k, k.current)
    {
      ResumedReadies(k, t);
    }
    ResumedReadies(k, k.current);
  }
}
