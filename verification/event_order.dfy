/**
 * The event lists of the kernel stay in priority order, so that an event wakes the waiter
 * of the highest priority, and the one queued first among equals.
 */
module EventOrder {
  import opened Seqs
  import opened Items
  import opened Tasks
  import opened Kernel
  import opened Invariant
  import opened Lifecycle
  import opened Runs

  ghost predicate Precedes(s: seq<Task>, t: Task, u: Task) {
    exists i, j :: 0 <= i < j < |s| && s[i] == t && s[j] == u
  }

  function Waiters(s: Items, q: nat): seq<Task> { At(s, Event(q)) }

  /** The value of an event item says the priority of its task. */
  ghost predicate Ranked(k: Kernel) {
    forall t :: t in k.tasks ==> Value(k.eventValue, t) == EventRank(k.levels, Priority(k, t))
  }

  ghost predicate Sorted(k: Kernel) {
    forall q, t, u :: Precedes(Waiters(k.items, q), t, u) ==> Value(k.eventValue, t) <= Value(k.eventValue, u)
  }

  /** Some leave; those who stay keep their order. */
  ghost predicate Shrinks(a: seq<Task>, b: seq<Task>) {
    && (forall t :: t in b ==> t in a)
    && (forall t, u :: Precedes(b, t, u) ==> Precedes(a, t, u))
  }

  ghost predicate AllShrink(s: Items, r: Items) {
    forall q :: Shrinks(Waiters(s, q), Waiters(r, q))
  }

  lemma WithoutShrinks(s: seq<Task>, x: Task)
    ensures Shrinks(s, Without(s, x))
  {
    var r, p := Without(s, x), IndexOf(s, x);
    forall t, u | Precedes(r, t, u)
      ensures Precedes(s, t, u)
    {
      var i, j :| 0 <= i < j < |r| && r[i] == t && r[j] == u;
      if p < |s| {
        assert s[if i < p then i else i + 1] == t && s[if j < p then j else j + 1] == u;
      }
    }
  }

  lemma TakingShrinks(s: Items, t: Task)
    ensures AllShrink(s, TakeGeneric(s, t)) && AllShrink(s, TakeEvent(s, t))
  {
    forall q
      ensures Shrinks(Waiters(s, q), Waiters(TakeGeneric(s, t), q))
      ensures Shrinks(Waiters(s, q), Waiters(TakeEvent(s, t), q))
    {
      WithoutShrinks(Waiters(s, q), t);
    }
  }

  lemma ShrinksOn(s: Items, m: Items, r: Items)
    requires AllShrink(s, m) && AllShrink(m, r)
    ensures AllShrink(s, r)
  {
    hide Precedes, Waiters;
    forall q
      ensures Shrinks(Waiters(s, q), Waiters(r, q))
    {
      assert Shrinks(Waiters(s, q), Waiters(m, q)) && Shrinks(Waiters(m, q), Waiters(r, q));
    }
  }

  lemma UntouchedShrink(s: Items, r: Items)
    requires forall q :: At(r, Event(q)) == At(s, Event(q))
    ensures AllShrink(s, r)
  {
  }

  lemma UnblockShrinks(s: Items, t: Task, p: nat)
    ensures AllShrink(s, TakeBoth(s, t)) && AllShrink(s, Unblock(s, t, p))
  {
    hide AllShrink;
    var a := TakeGeneric(s, t);
    TakingShrinks(s, t);
    TakingShrinks(a, t);
    ShrinksOn(s, a, TakeEvent(a, t));
    UntouchedShrink(TakeBoth(s, t), Unblock(s, t, p));
    ShrinksOn(s, TakeBoth(s, t), Unblock(s, t, p));
  }

  lemma {:induction false} UnblockAllShrinks(s: Items, ts: seq<Task>, priority: map<Task, nat>)
    ensures AllShrink(s, UnblockAll(s, ts, priority))
    decreases |ts|
  {
    hide AllShrink;
    if ts == [] {
      UntouchedShrink(s, s);
    } else {
      var m := Unblock(s, ts[0], Value(priority, ts[0]));
      UnblockShrinks(s, ts[0], Value(priority, ts[0]));
      UnblockAllShrinks(m, ts[1..], priority);
      ShrinksOn(s, m, UnblockAll(s, ts, priority));
    }
  }

  lemma CheckDelayedShrinks(k: Kernel)
    ensures AllShrink(k.items, CheckDelayed(k).items)
  {
    hide AllShrink, HeadValue, DueCount, UnblockAll, RaisedBy;
    UntouchedShrink(k.items, k.items);
    UnblockAllShrinks(k.items, CurrentDelayed(k)[..DueCount(k)], k.priority);
  }

  lemma TickShrinks(k: Kernel)
    ensures AllShrink(k.items, Tick(k).items)
  {
    hide AllShrink, AdvanceTick, CheckDelayed;
    AdvanceKeepsItems(k);
    UntouchedShrink(k.items, k.items);
    CheckDelayedShrinks(AdvanceTick(k));
  }

  lemma AdvanceKeepsItems(k: Kernel)
    ensures AdvanceTick(k).items == k.items && AdvanceTick(k).priority == k.priority
  {
    hide HeadValue;
    if k.tick + 1 < k.modulus { assert AdvanceTick(k) == k.(tick := k.tick + 1); }
  }

  lemma {:induction false} CatchUpShrinks(k: Kernel, n: nat)
    ensures AllShrink(k.items, CatchUp(k, n).items)
    decreases n
  {
    hide AllShrink, Tick;
    if n == 0 {
      UntouchedShrink(k.items, k.items);
    } else {
      TickShrinks(k);
      CatchUpShrinks(Tick(k), n - 1);
      ShrinksOn(k.items, Tick(k).items, CatchUp(k, n).items);
    }
  }

  lemma SwitchShrinks(k: Kernel)
    ensures AllShrink(k.items, SwitchContext(k).items)
  {
    hide AllShrink, TopNonEmpty;
    var r := SwitchContext(k);
    assert r.items == if k.suspended == 0 then Rotated(k.items, TopNonEmpty(k, k.topReady)) else k.items;
    UntouchedShrink(k.items, r.items);
  }

  lemma ResumeShrinks(k: Kernel)
    requires k.suspended > 0
    ensures AllShrink(k.items, ResumeAll(k).items)
  {
    hide AllShrink, CatchUp, UnblockAll, SwitchContext, YieldOnResume;
    var k1 := k.(suspended := k.suspended - 1);
    UntouchedShrink(k.items, k.items);
    var drained := ReadyAll(k1, At(k1.items, Pending));
    UnblockAllShrinks(k.items, At(k.items, Pending), k.priority);
    CatchUpShrinks(drained, k.missedTicks);
    ShrinksOn(k.items, drained.items, CatchUp(drained, k.missedTicks).items);
    SwitchShrinks(Resumed(k).(missedYield := false));
    ShrinksOn(k.items, Resumed(k).items, SwitchContext(Resumed(k).(missedYield := false)).items);
  }

  lemma DelayShrinks(k: Kernel, n: nat)
    requires k.modulus > 0
    ensures AllShrink(k.items, Delay(k, n).items)
  {
    hide AllShrink, WakePosition;
    var a := TakeGeneric(k.items, k.current);
    TakingShrinks(k.items, k.current);
    UntouchedShrink(a, Delay(k, n).items);
    ShrinksOn(k.items, a, Delay(k, n).items);
  }

  lemma WakingShrinks(s: Items, t: Task, p: nat)
    ensures AllShrink(s, AppendGeneric(TakeGeneric(TakeEvent(s, t), t), t, Ready(p)))
    ensures var a := TakeEvent(s, t); AllShrink(s, PutEvent(a, t, Pending, |At(a, Pending)|))
  {
    hide AllShrink;
    var a := TakeEvent(s, t);
    TakingShrinks(s, t);
    MoveShrinks(a, t, p);
    ShrinksOn(s, a, AppendGeneric(TakeGeneric(a, t), t, Ready(p)));
    UntouchedShrink(a, PutEvent(a, t, Pending, |At(a, Pending)|));
    ShrinksOn(s, a, PutEvent(a, t, Pending, |At(a, Pending)|));
  }

  lemma MoveShrinks(s: Items, t: Task, p: nat)
    ensures AllShrink(s, AppendGeneric(TakeGeneric(s, t), t, Ready(p)))
    ensures AllShrink(s, AppendGeneric(s, t, Ready(p)))
    ensures AllShrink(s, AppendGeneric(TakeBoth(s, t), t, Terminating))
  {
    hide AllShrink;
    TakingShrinks(s, t);
    UntouchedShrink(TakeGeneric(s, t), AppendGeneric(TakeGeneric(s, t), t, Ready(p)));
    UntouchedShrink(s, AppendGeneric(s, t, Ready(p)));
    ShrinksOn(s, TakeGeneric(s, t), AppendGeneric(TakeGeneric(s, t), t, Ready(p)));
    UnblockShrinks(s, t, p);
    UntouchedShrink(TakeBoth(s, t), AppendGeneric(TakeBoth(s, t), t, Terminating));
    ShrinksOn(s, TakeBoth(s, t), AppendGeneric(TakeBoth(s, t), t, Terminating));
  }

  lemma WakeShrinks(k: Kernel, q: nat)
    requires Waiters(k.items, q) != []
    ensures AllShrink(k.items, RemoveFromEventList(k, q).items)
  {
    hide AllShrink, TakeEvent, TakeGeneric, AppendGeneric, PutEvent;
    var t := Waiters(k.items, q)[0];
    WakingShrinks(k.items, t, Priority(k, t));
  }

  lemma PriorityMoves(k: Kernel, h: Task)
    ensures AllShrink(k.items, Inherit(k, h).items) && AllShrink(k.items, Disinherit(k, h).items)
  {
    hide AllShrink, TakeGeneric, AppendGeneric, Generic;
    UntouchedShrink(k.items, k.items);
    MoveShrinks(k.items, h, Priority(k, k.current));
    MoveShrinks(k.items, h, Value(k.basePriority, h));
    if Priority(k, h) < Priority(k, k.current) && Generic(k.items, h) == Ready(Priority(k, h)) {
      assert Inherit(k, h).items == AppendGeneric(TakeGeneric(k.items, h), h, Ready(Priority(k, k.current)));
    }
  }

  /** Only a task that blocks enters an event list. */
  lemma EventsShrink(k: Kernel, s: Step)
    requires Enabled(k, s) && !s.BlockCurrent?
    ensures AllShrink(k.items, Apply(k, s).items)
  {
    hide AllShrink, TakeBoth, TakeGeneric, AppendGeneric, Tick, ResumeAll, SwitchContext, Delay, RemoveFromEventList, Inherit, Disinherit;
    UntouchedShrink(k.items, k.items);
    match s
    case TickInterrupt => TickShrinks(k);
    case Resume => ResumeShrinks(k);
    case Yield => SwitchShrinks(k);
    case DelayCurrent(n) => if k.modulus > 0 { DelayShrinks(k, n); }
    case WakeFirst(q) => WakeShrinks(k, q);
    case NewTask(t, p) => MoveShrinks(k.items, t, Capped(k.levels, p));
    case StartScheduler(t) => MoveShrinks(k.items, t, Capped(k.levels, 0));
    case DeleteTask(t) => MoveShrinks(k.items, t, 0);
    case ReapTask => TakingShrinks(k.items, At(k.items, Terminating)[0]);
    case InheritTo(h) => PriorityMoves(k, h);
    case DisinheritFrom(h) => PriorityMoves(k, h);
    case _ =>
  }

  // ---- priority order ----

  lemma RanksUpdated(k: Kernel, r: Kernel, t: Task, p: nat)
    requires Ranked(k) && r.levels == k.levels && r.tasks <= k.tasks + {t}
    requires r.priority == k.priority[t := p] && r.eventValue == k.eventValue[t := EventRank(k.levels, p)]
    ensures Ranked(r)
  {
    forall x | x in r.tasks
      ensures Value(r.eventValue, x) == EventRank(r.levels, Priority(r, x))
    {
      assert x != t ==> Value(k.eventValue, x) == EventRank(k.levels, Priority(k, x));
    }
  }

  lemma StepKeepsRanked(k: Kernel, s: Step)
    requires Core(k) && Enabled(k, s) && Ranked(k)
    ensures Ranked(Apply(k, s))
  {
    hide Core, Ranked, EventRank, AppendGeneric, Inherit, Disinherit;
    match s
    case NewTask(t, p) => RanksUpdated(k, Create(k, t, p), t, Capped(k.levels, p));
    case StartScheduler(t) => RanksUpdated(k, Start(k, t), t, Capped(k.levels, 0));
    case InheritTo(h) =>
      InheritFields(k, h);
      if Priority(k, h) < Priority(k, k.current) { RanksUpdated(k, Inherit(k, h), h, Priority(k, k.current)); }
      else { RankedIsAboutRanks(k, Inherit(k, h)); }
    case DisinheritFrom(h) =>
      DisinheritFields(k, h);
      if Priority(k, h) != Value(k.basePriority, h) { RanksUpdated(k, Disinherit(k, h), h, Value(k.basePriority, h)); }
      else { RankedIsAboutRanks(k, Disinherit(k, h)); }
    case _ =>
      StepKeepsRanks(k, s);
      RankedIsAboutRanks(k, Apply(k, s));
  }

  lemma RankedIsAboutRanks(k: Kernel, r: Kernel)
    requires Ranked(k) && SameRanks(k, r)
    ensures Ranked(r)
  {
  }

  lemma Queued(k: Kernel, q: nat, t: Task)
    requires Core(k)
    ensures t in Waiters(k.items, q) <==> EventPlace(k.items, t) == Event(q)
    ensures t in Waiters(k.items, q) ==> t in k.tasks && Generic(k.items, t).Delayed?
  {
    assert t in At(k.items, Event(q)) <==> HasPlace(k.items, t, Event(q));
  }

  ghost predicate NoQueuedInherit(k: Kernel, s: Step) {
    s.InheritTo? ==> !EventPlace(k.items, s.task).Event?
  }

  lemma NewLeavesValues(k: Kernel, x: Task, priority: nat, t: Task)
    requires t != x
    ensures Value(Create(k, x, priority).eventValue, t) == Value(k.eventValue, t)
  {
    hide AppendGeneric, EventRank, Capped;
  }

  /** A queued task keeps its event value. */
  lemma QueuedKeepsValue(k: Kernel, s: Step, q: nat, t: Task)
    requires Core(k) && Enabled(k, s) && NoQueuedInherit(k, s) && t in Waiters(k.items, q)
    ensures Value(Apply(k, s).eventValue, t) == Value(k.eventValue, t)
  {
    hide Core, EventRank, AppendGeneric, Inherit, Disinherit;
    Queued(k, q, t);
    match s
    case NewTask(x, p) => NewLeavesValues(k, x, p, t);
    case StartScheduler(x) => NewLeavesValues(k, x, 0, t);
    case InheritTo(h) => InheritFields(k, h);
    case DisinheritFrom(h) => DisinheritFields(k, h);
    case _ => StepKeepsRanks(k, s);
  }

  lemma SortedFrame(k: Kernel, r: Kernel)
    requires Sorted(k) && AllShrink(k.items, r.items)
    requires forall q, t :: t in Waiters(k.items, q) ==> Value(r.eventValue, t) == Value(k.eventValue, t)
    ensures Sorted(r)
  {
    forall q, t, u | Precedes(Waiters(r.items, q), t, u)
      ensures Value(r.eventValue, t) <= Value(r.eventValue, u)
    {
      assert Shrinks(Waiters(k.items, q), Waiters(r.items, q));
      assert Precedes(Waiters(k.items, q), t, u);
      assert t in Waiters(k.items, q) && u in Waiters(k.items, q);
    }
  }

  /** In order, by value. */
  ghost predicate ByValue(vs: map<Task, nat>, e: seq<Task>) {
    forall t, u :: Precedes(e, t, u) ==> Value(vs, t) <= Value(vs, u)
  }

  /** Where a value goes in, everything before it is no larger and everything after it is larger. */
  lemma PositionSplits(vs: map<Task, nat>, e: seq<Task>, v: nat, i: nat)
    requires i < |e| && ByValue(vs, e)
    ensures i < InsertPosition(Values(vs, e), v) <==> Value(vs, e[i]) <= v
  {
    var p := InsertPosition(Values(vs, e), v);
    if i < p {
      assert Values(vs, e)[i] <= v;
    } else if i > p {
      assert Values(vs, e)[p] > v && Precedes(e, e[p], e[i]);
    }
  }

  /** The newcomer stands right against everything that is there ... */
  lemma NewcomerSorted(vs: map<Task, nat>, e: seq<Task>, c: Task, i: nat)
    requires ByValue(vs, e) && i < |e|
    ensures var v := Value(vs, c);
            if i < InsertPosition(Values(vs, e), v) then Value(vs, e[i]) <= v else v <= Value(vs, e[i])
  {
    hide InsertPosition, Values, Precedes;
    PositionSplits(vs, e, Value(vs, c), i);
  }

  /** ... and the others against each other as before. */
  lemma OthersSorted(vs: map<Task, nat>, e: seq<Task>, i: nat, j: nat)
    requires ByValue(vs, e) && i < j < |e|
    ensures Value(vs, e[i]) <= Value(vs, e[j])
  {
    assert Precedes(e, e[i], e[j]);
  }

  lemma SortedAt(vs: map<Task, nat>, e: seq<Task>, c: Task, i: nat, j: nat)
    requires ByValue(vs, e) && i < j <= |e|
    ensures var r := InsertAt(e, InsertPosition(Values(vs, e), Value(vs, c)), c); Value(vs, r[i]) <= Value(vs, r[j])
  {
    hide InsertPosition, Values, Value, ByValue;
    var p := InsertPosition(Values(vs, e), Value(vs, c));
    if i == p {
      NewcomerSorted(vs, e, c, j - 1);
    } else if j == p {
      NewcomerSorted(vs, e, c, i);
    } else {
      OthersSorted(vs, e, if i < p then i else i - 1, if j < p then j else j - 1);
    }
  }

  lemma SortedInserted(vs: map<Task, nat>, e: seq<Task>, c: Task)
    requires ByValue(vs, e)
    ensures ByValue(vs, InsertAt(e, InsertPosition(Values(vs, e), Value(vs, c)), c))
  {
    hide InsertPosition, InsertAt, Values, Value;
    var r := InsertAt(e, InsertPosition(Values(vs, e), Value(vs, c)), c);
    forall t, u | Precedes(r, t, u)
      ensures Value(vs, t) <= Value(vs, u)
    {
      var i, j :| 0 <= i < j < |r| && r[i] == t && r[j] == u;
      SortedAt(vs, e, c, i, j);
    }
  }

  /** The first half of vTaskPlaceOnEventList. */
  function Queueing(k: Kernel, q: nat): Kernel {
    k.(items := PutEvent(k.items, k.current, Event(q), EventPosition(k, q, Value(k.eventValue, k.current))))
  }

  lemma QueueingSorts(k: Kernel, q: nat)
    requires Sorted(k)
    ensures Sorted(Queueing(k, q))
  {
    hide InsertPosition, InsertAt, Values, Value;
    var r := Queueing(k, q);
    SortedInserted(k.eventValue, Waiters(k.items, q), k.current);
    forall x, t, u | Precedes(Waiters(r.items, x), t, u)
      ensures Value(r.eventValue, t) <= Value(r.eventValue, u)
    {
      if x != q { assert Waiters(r.items, x) == Waiters(k.items, x); }
    }
  }

  lemma BlockingSorts(k: Kernel, q: nat, n: nat)
    requires Sorted(k) && k.modulus > 0
    ensures Sorted(PlaceOnEventList(k, q, n))
  {
    hide Sorted, AllShrink, EventPosition, Delay;
    QueueingSorts(k, q);
    DelayShrinks(Queueing(k, q), n);
    DelayFrame(Queueing(k, q), n);
    SortedFrame(Queueing(k, q), PlaceOnEventList(k, q, n));
  }

  ghost predicate Ordered(k: Kernel) { Ranked(k) && Sorted(k) }

  /** Every step keeps the event lists in priority order, as long as no queued task inherits. */
  lemma StepKeepsOrder(k: Kernel, s: Step)
    requires Core(k) && Enabled(k, s) && Ordered(k) && NoQueuedInherit(k, s)
    ensures Ordered(Apply(k, s))
  {
    hide Core, Ranked, Sorted, Apply, AllShrink, Waiters, NoQueuedInherit;
    StepKeepsRanked(k, s);
    if s.BlockCurrent? {
      BlockingOrder(k, s.queue, s.ticks);
    } else {
      EventsShrink(k, s);
      forall q, t | t in Waiters(k.items, q)
        ensures Value(Apply(k, s).eventValue, t) == Value(k.eventValue, t)
      {
        QueuedKeepsValue(k, s, q, t);
      }
      SortedFrame(k, Apply(k, s));
    }
  }

  lemma BlockingOrder(k: Kernel, q: nat, n: nat)
    requires Sorted(k) && MayBlock(k, n)
    ensures Sorted(Apply(k, BlockCurrent(q, n)))
  {
    hide Sorted, PlaceOnEventList;
    BlockingSorts(k, q, n);
  }

  // ---- whole runs ----

  ghost predicate RunDisciplined(k: Kernel, steps: seq<Step>)
    decreases |steps|
  {
    steps != [] ==> NoQueuedInherit(k, steps[0]) && RunDisciplined(Apply(k, steps[0]), steps[1..])
  }

  lemma {:induction false} RunKeepsOrder(k: Kernel, steps: seq<Step>)
    requires Consistent(k) && Ordered(k) && RunEnabled(k, steps) && RunDisciplined(k, steps)
    ensures Consistent(Run(k, steps)) && Ordered(Run(k, steps))
    decreases |steps|
  {
    hide Core, Ordered, Apply, Enabled, NoQueuedInherit, Based, Settled;
    if steps != [] {
      StepKeepsOrder(k, steps[0]);
      ApplyKeepsConsistent(k, steps[0]);
      RunKeepsOrder(Apply(k, steps[0]), steps[1..]);
    }
  }

  lemma HeadIsHighest(k: Kernel, q: nat, t: Task)
    requires Core(k) && Ordered(k) && t in Waiters(k.items, q)
    ensures Priority(k, t) <= Priority(k, Waiters(k.items, q)[0])
  {
    hide Placed, Live, Timed, Counted, Populated, Levelled;
    var e := Waiters(k.items, q);
    var i :| 0 <= i < |e| && e[i] == t;
    Queued(k, q, t);
    Queued(k, q, e[0]);
    PrioritiesBounded(k, t);
    PrioritiesBounded(k, e[0]);
    if i > 0 { assert Precedes(e, e[0], t); }
  }

  /**
   * In every state that a run from boot reaches, an event wakes a waiter of the highest
   * priority: it is made ready, or pending while the scheduler is suspended, and the
   * caller is told to yield exactly if some waiter does not rank below it.
   */
  lemma HighestWaiterIsWoken(modulus: nat, levels: nat, steps: seq<Step>, q: nat)
    requires modulus > 1 && levels > 0
    requires RunEnabled(Boot(modulus, levels), steps) && RunDisciplined(Boot(modulus, levels), steps)
    requires Waiters(Run(Boot(modulus, levels), steps).items, q) != []
    ensures var k := Run(Boot(modulus, levels), steps); var w := Waiters(k.items, q)[0]; var r := RemoveFromEventList(k, q);
            && (forall t :: t in Waiters(k.items, q) ==> Priority(k, t) <= Priority(k, w))
            && w !in Waiters(r.items, q)
            && (if k.suspended == 0 then Generic(r.items, w) == Ready(Priority(k, w)) else EventPlace(r.items, w) == Pending)
            && (WokenOutranks(k, q) <==> exists t :: t in Waiters(k.items, q) && Priority(k, k.current) <= Priority(k, t))
  {
    hide RunEnabled, RunDisciplined, Run, Consistent, Ordered;
    var k0 := Boot(modulus, levels);
    BootConsistent(modulus, levels);
    assert Ordered(k0) by { BootOrdered(modulus, levels); }
    RunKeepsOrder(k0, steps);
    var k := Run(k0, steps);
    assert Core(k) by { CoreOfConsistent(k); }
    forall t | t in Waiters(k.items, q)
      ensures Priority(k, t) <= Priority(k, Waiters(k.items, q)[0])
    {
      HeadIsHighest(k, q, t);
    }
    WokenLeaves(k, q);
  }

  lemma CoreOfConsistent(k: Kernel)
    requires Consistent(k)
    ensures Core(k)
  {
    hide Core;
  }

  lemma BootOrdered(modulus: nat, levels: nat)
    requires modulus > 1
    ensures Ordered(Boot(modulus, levels))
  {
  }

  lemma WokenLeaves(k: Kernel, q: nat)
    requires Core(k) && Waiters(k.items, q) != []
    ensures var w, r := Waiters(k.items, q)[0], RemoveFromEventList(k, q);
            && w !in Waiters(r.items, q)
            && (if k.suspended == 0 then Generic(r.items, w) == Ready(Priority(k, w)) else EventPlace(r.items, w) == Pending)
  {
    hide Core, At;
    var w, r := Waiters(k.items, q)[0], RemoveFromEventList(k, q);
    FirstWaiter(k, q);
    RemoveFromEventListKeepsCore(k, q);
    Queued(r, q, w);
  }

  // ---- first come, first woken ----

  /** Task `t` is in the event list of `q` before and after every step of the run. */
  ghost predicate StaysQueued(k: Kernel, steps: seq<Step>, q: nat, t: Task)
    decreases |steps|
  {
    && t in Waiters(k.items, q)
    && (steps != [] ==> StaysQueued(Apply(k, steps[0]), steps[1..], q, t))
  }

  /** If `u` waits too, it outranks `t` or stands behind it. */
  ghost predicate BehindOrBetter(k: Kernel, q: nat, t: Task, u: Task) {
    u in Waiters(k.items, q) ==> Value(k.eventValue, u) < Value(k.eventValue, t) || Precedes(Waiters(k.items, q), t, u)
  }

  lemma OrderKept(a: seq<Task>, b: seq<Task>, t: Task, u: Task)
    requires NoDup(a) && Shrinks(a, b) && t in b && u in b && Precedes(a, t, u)
    ensures Precedes(b, t, u)
  {
    var i :| 0 <= i < |b| && b[i] == t;
    var j :| 0 <= j < |b| && b[j] == u;
    NotBoth(a, t, u);
    assert i < j ==> Precedes(b, t, u);
    assert j < i ==> Precedes(b, u, t);
  }

  lemma NotBoth(s: seq<Task>, t: Task, u: Task)
    requires NoDup(s)
    ensures !(Precedes(s, t, u) && Precedes(s, u, t)) && !Precedes(s, t, t)
  {
  }

  lemma ShrinkKeepsBehind(k: Kernel, r: Kernel, q: nat, t: Task, u: Task)
    requires NoDup(Waiters(k.items, q)) && AllShrink(k.items, r.items) && t in Waiters(r.items, q)
    requires forall x :: x in Waiters(k.items, q) ==> Value(r.eventValue, x) == Value(k.eventValue, x)
    requires BehindOrBetter(k, q, t, u)
    ensures BehindOrBetter(r, q, t, u)
  {
    assert Shrinks(Waiters(k.items, q), Waiters(r.items, q));
    if u in Waiters(r.items, q) && Precedes(Waiters(k.items, q), t, u) {
      OrderKept(Waiters(k.items, q), Waiters(r.items, q), t, u);
    }
  }

  lemma InsertKeepsPrecedes(e: seq<Task>, p: nat, c: Task, t: Task, u: Task)
    requires p <= |e| && Precedes(e, t, u)
    ensures Precedes(InsertAt(e, p, c), t, u)
  {
    var i, j :| 0 <= i < j < |e| && e[i] == t && e[j] == u;
    var r := InsertAt(e, p, c);
    assert r[if i < p then i else i + 1] == t && r[if j < p then j else j + 1] == u;
  }

  lemma QueueingKeepsBehind(k: Kernel, q: nat, x: nat, t: Task, u: Task)
    requires Sorted(k) && t in Waiters(k.items, q) && BehindOrBetter(k, q, t, u)
    ensures BehindOrBetter(Queueing(k, x), q, t, u)
  {
    hide InsertPosition, Values, Value;
    var e, r, c := Waiters(k.items, q), Queueing(k, x), k.current;
    if x == q {
      var p := EventPosition(k, q, Value(k.eventValue, c));
      assert Waiters(r.items, q) == InsertAt(e, p, c);
      if u in e {
        if Precedes(e, t, u) { InsertKeepsPrecedes(e, p, c, t, u); }
      } else if u == c {
        var i :| 0 <= i < |e| && e[i] == t;
        PositionSplits(k.eventValue, e, Value(k.eventValue, c), i);
        assert InsertAt(e, p, c)[p] == c;
        assert i < p ==> InsertAt(e, p, c)[i] == t;
      } else {
        InsertMembers(e, p, c);
      }
    } else {
      assert Waiters(r.items, q) == e;
    }
  }

  lemma BlockingKeepsBehind(k: Kernel, x: nat, n: nat, q: nat, t: Task, u: Task)
    requires Core(k) && Sorted(k) && MayBlock(k, n) && BehindOrBetter(k, q, t, u)
    requires t in Waiters(k.items, q) && t in Waiters(PlaceOnEventList(k, x, n).items, q)
    ensures BehindOrBetter(PlaceOnEventList(k, x, n), q, t, u)
  {
    hide Core, BehindOrBetter, Delay, AllShrink, Sorted, EventPosition;
    BoundedOfCore(k);
    assert NoDup(Waiters(Queueing(k, x).items, q)) by { QueueingPlaced(k, x, n, q); }
    QueueingKeepsBehind(k, q, x, t, u);
    DelayShrinks(Queueing(k, x), n);
    DelayFrame(Queueing(k, x), n);
    ShrinkKeepsBehind(Queueing(k, x), PlaceOnEventList(k, x, n), q, t, u);
  }

  lemma QueueingPlaced(k: Kernel, x: nat, n: nat, q: nat)
    requires Core(k) && MayBlock(k, n)
    ensures NoDup(Waiters(Queueing(k, x).items, q))
  {
    hide Timed, Levelled, At;
    PutEventPlaced(k.items, k.current, Event(x), EventPosition(k, x, Value(k.eventValue, k.current)));
  }

  lemma StepKeepsBehind(k: Kernel, s: Step, q: nat, t: Task, u: Task)
    requires Core(k) && Ordered(k) && Enabled(k, s) && NoQueuedInherit(k, s) && BehindOrBetter(k, q, t, u)
    requires t in Waiters(k.items, q) && t in Waiters(Apply(k, s).items, q)
    ensures BehindOrBetter(Apply(k, s), q, t, u)
  {
    hide Core, BehindOrBetter, Sorted, Ranked, AllShrink, NoQueuedInherit, Waiters;
    if s.BlockCurrent? {
      assert k.modulus > 0 by { BoundedOfCore(k); }
      BlockingKeepsBehind(k, s.queue, s.ticks, q, t, u);
    } else {
      hide Apply;
      EventsShrink(k, s);
      assert NoDup(Waiters(k.items, q)) by { NoneTwice(k, q); }
      forall x | x in Waiters(k.items, q)
        ensures Value(Apply(k, s).eventValue, x) == Value(k.eventValue, x)
      {
        QueuedKeepsValue(k, s, q, x);
      }
      ShrinkKeepsBehind(k, Apply(k, s), q, t, u);
    }
  }

  lemma NoneTwice(k: Kernel, q: nat)
    requires Core(k)
    ensures NoDup(Waiters(k.items, q))
  {
  }

  lemma {:induction false} RunKeepsBehind(k: Kernel, steps: seq<Step>, q: nat, t: Task, u: Task)
    requires Consistent(k) && Ordered(k) && RunEnabled(k, steps) && RunDisciplined(k, steps)
    requires StaysQueued(k, steps, q, t) && BehindOrBetter(k, q, t, u)
    ensures Consistent(Run(k, steps)) && Ordered(Run(k, steps)) && t in Waiters(Run(k, steps).items, q)
    ensures BehindOrBetter(Run(k, steps), q, t, u)
    decreases |steps|
  {
    hide Core, Ordered, Apply, Enabled, NoQueuedInherit, Based, Settled, BehindOrBetter, Waiters;
    if steps != [] {
      StepKeepsOrder(k, steps[0]);
      ApplyKeepsConsistent(k, steps[0]);
      StepKeepsBehind(k, steps[0], q, t, u);
      RunKeepsBehind(Apply(k, steps[0]), steps[1..], q, t, u);
    }
  }

  /** A task that queues after `t` without outranking it stands behind `t` as long as both wait. */
  lemma FirstComeFirstWoken(k: Kernel, steps: seq<Step>, q: nat, t: Task, u: Task)
    requires Consistent(k) && Ordered(k) && RunEnabled(k, steps) && RunDisciplined(k, steps)
    requires StaysQueued(k, steps, q, t) && u !in Waiters(k.items, q)
    ensures var r := Run(k, steps); var e := Waiters(r.items, q);
            u in e && Priority(r, u) <= Priority(r, t) ==> Precedes(e, t, u) && e[0] != u
  {
    hide Core, Ranked, Sorted, RunEnabled, RunDisciplined, StaysQueued, Run, Precedes, Based, Settled;
    RunKeepsBehind(k, steps, q, t, u);
    var r := Run(k, steps);
    var e := Waiters(r.items, q);
    if u in e && Priority(r, u) <= Priority(r, t) {
      Queued(r, q, t);
      Queued(r, q, u);
      RankOf(r, t);
      RankOf(r, u);
      assert Precedes(e, t, u);
      NotFirst(r, q, t, u);
    }
  }

  lemma RankOf(k: Kernel, t: Task)
    requires Core(k) && Ranked(k) && t in k.tasks
    ensures Priority(k, t) < k.levels && Value(k.eventValue, t) == k.levels - Priority(k, t)
  {
    hide Placed, Live, Timed;
  }

  lemma NotFirst(k: Kernel, q: nat, t: Task, u: Task)
    requires Core(k) && Precedes(Waiters(k.items, q), t, u)
    ensures Waiters(k.items, q)[0] != u
  {
    NoneTwice(k, q);
  }

  // ---- a queued task that inherits ----

  /** Inheritance changes the value of a queued task and leaves it where it stands: the list
      stays in order exactly if nobody ahead of it ranks below its new priority. */
  lemma QueuedInheritExact(k: Kernel, q: nat, h: Task)
    requires Core(k) && Ordered(k) && h in Waiters(k.items, q)
    ensures var p := Priority(k, k.current);
            Sorted(Inherit(k, h)) <==>
              p <= Priority(k, h) || forall t :: Precedes(Waiters(k.items, q), t, h) ==> p <= Priority(k, t)
  {
    hide Placed, Live, Timed, Levelled, Counted, Populated, Precedes, Inherit, Value;
    var r, p, e := Inherit(k, h), Priority(k, k.current), Waiters(k.items, q);
    InheritFields(k, h);
    InheritKeepsLists(k, q, h);
    if Priority(k, h) < p {
      Queued(k, q, h);
      RankOf(k, h);
      PrioritiesBounded(k, k.current);
      forall t
        ensures Value(r.eventValue, t) == if t == h then k.levels - p else Value(k.eventValue, t)
      {
        ValueUpdated(k.eventValue, h, k.levels - p, t);
      }
      forall t | Precedes(e, t, h)
        ensures t != h && Value(k.eventValue, t) == k.levels - Priority(k, t)
      {
        PrecedesMembers(k, q, t, h);
        RankOf(k, t);
      }
      forall x, t, u | Precedes(Waiters(k.items, x), t, u) && x != q
        ensures t != h && u != h
      {
        PrecedesMembers(k, x, t, u);
        Queued(k, x, t);
        Queued(k, x, u);
      }
    }
  }

  lemma ValueUpdated(vs: map<Task, nat>, h: Task, v: nat, t: Task)
    ensures Value(vs[h := v], t) == if t == h then v else Value(vs, t)
  {
  }

  lemma PrecedesMembers(k: Kernel, q: nat, t: Task, u: Task)
    requires Core(k) && Precedes(Waiters(k.items, q), t, u)
    ensures t in Waiters(k.items, q) && u in Waiters(k.items, q) && t != u
    ensures t in k.tasks && u in k.tasks
  {
    NoneTwice(k, q);
    Queued(k, q, t);
    Queued(k, q, u);
  }

  lemma InheritKeepsLists(k: Kernel, q: nat, h: Task)
    requires Core(k) && h in Waiters(k.items, q)
    ensures Inherit(k, h).items == k.items
  {
    hide Placed, Live, Timed, Levelled, Counted, Populated;
    Queued(k, q, h);
  }

  /** A state that satisfies the invariant: tasks 1 and 2 of priorities 1 and 2 wait, 2 in front
      of 1, and task 3 of priority 3 is running. */
  function TwoWaiters(): Kernel {
    Kernel(16, 4, {0, 1, 2, 3},
      Items(map[0 := Ready(0), 1 := Delayed(false), 2 := Delayed(false), 3 := Ready(3)],
            map[1 := Event(0), 2 := Event(0)],
            map[Ready(0) := [0], Ready(3) := [3], Delayed(false) := [1, 2], Event(0) := [2, 1]]),
      map[1 := 1, 2 := 2, 3 := 3], map[1 := 1, 2 := 2, 3 := 3], map[1 := 5, 2 := 5],
      map[0 := 4, 1 := 3, 2 := 2, 3 := 1], 3, 0, true, false, 0, 0, 5, 0, 0, false, 3, 4, 0)
  }

  lemma TwoWaitersPlaces()
    ensures var s := TwoWaiters().items;
            && (forall t :: Generic(s, t) == if t == 0 then Ready(0) else if t == 3 then Ready(3)
                                             else if t == 1 || t == 2 then Delayed(false) else Nowhere)
            && (forall t :: EventPlace(s, t) == if t == 1 || t == 2 then Event(0) else Nowhere)
            && (forall l :: At(s, l) == if l == Ready(0) then [0] else if l == Ready(3) then [3]
                                        else if l == Delayed(false) then [1, 2] else if l == Event(0) then [2, 1] else [])
  {
  }

  lemma TwoWaitersPlaced()
    ensures Placed(TwoWaiters().items)
  {
    TwoWaitersPlaces();
    hide At, Generic, EventPlace, TwoWaiters;
  }

  lemma TwoWaitersTimed()
    ensures Timed(TwoWaiters())
  {
    hide At, Generic, EventPlace;
    TwoWaitersPlaces();
  }

  lemma TwoWaitersInv()
    ensures Inv(TwoWaiters())
  {
    hide Placed, Timed, At, Generic, EventPlace;
    TwoWaitersPlaces();
    TwoWaitersPlaced();
    TwoWaitersTimed();
    assert |TwoWaiters().tasks| == 4;
  }

  lemma TwoWaitersOrdered()
    ensures Ordered(TwoWaiters())
  {
  }

  /** Task 1 inherits priority 3 while it is queued and task 2, of priority 2, is woken first. */
  lemma QueuedInheritExample()
    ensures var k := Inherit(TwoWaiters(), 1);
            && Inv(TwoWaiters()) && Ordered(TwoWaiters()) && !Sorted(k)
            && Waiters(k.items, 0) == [2, 1] && Priority(k, 1) == 3 && Priority(k, 2) == 2
  {
    hide Inv, Ordered;
    TwoWaitersInv();
    TwoWaitersOrdered();
    var k := Inherit(TwoWaiters(), 1);
    var e := Waiters(k.items, 0);
    assert e == [2, 1] && e[0] == 2 && e[1] == 1;
    assert Precedes(e, 2, 1);
    assert Value(k.eventValue, 2) == 2 && Value(k.eventValue, 1) == 1;
  }
}
