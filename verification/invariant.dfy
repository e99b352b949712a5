/**
 * The invariant of the scheduler: every operation keeps it.
 */
module Invariant {
  import opened Seqs
  import opened Items
  import opened Tasks
  import opened Kernel

  /** A task is in exactly one generic list; one that waits for an event is blocked. */
  ghost predicate Live(s: Items, tasks: set<Task>, suspended: nat) {
    && (forall t :: t in tasks <==> Generic(s, t) != Nowhere)
    && (forall t :: EventPlace(s, t) != Nowhere ==> Generic(s, t).Delayed?)
    && (forall t :: EventPlace(s, t) == Pending ==> suspended > 0)
  }

  /** A ready task is in the list of its priority, which `top` bounds from above. */
  ghost predicate Levelled(s: Items, priority: map<Task, nat>, top: nat, levels: nat) {
    && top < levels
    && (forall t :: Value(priority, t) < levels)
    && (forall t :: Generic(s, t).Ready? ==> Generic(s, t).priority == Value(priority, t) <= top)
  }

  ghost predicate Ascending(vs: map<Task, nat>, s: seq<Task>) {
    forall i, j :: 0 <= i < j < |s| ==> Value(vs, s[i]) <= Value(vs, s[j])
  }

  /** Wake values: from `low` on in the current list, behind the tick count in the other. */
  ghost predicate TimedFrom(k: Kernel, low: nat) {
    && (forall t :: Generic(k.items, t) == Delayed(k.second) ==> low <= Wake(k, t) < k.modulus && k.nextUnblock <= Wake(k, t))
    && (forall t :: Generic(k.items, t) == Delayed(!k.second) ==> Wake(k, t) < k.tick)
    && Ascending(k.wakeValue, CurrentDelayed(k))
    && Ascending(k.wakeValue, OverflowDelayed(k))
  }

  ghost predicate Bounded(k: Kernel) {
    k.modulus > 1 && k.tick < k.modulus && k.nextUnblock < k.modulus
  }

  ghost predicate Timed(k: Kernel) {
    Bounded(k) && TimedFrom(k, k.tick + 1)
  }

  ghost predicate Counted(k: Kernel) {
    k.taskCount == |k.tasks| && k.deletedCount == |At(k.items, Terminating)|
  }

  /** With the scheduler running free nothing is left over from a suspension. */
  ghost predicate Settled(k: Kernel) {
    k.suspended == 0 ==> k.missedTicks == 0 && !k.missedYield
  }

  ghost predicate Populated(k: Kernel) {
    && (k.tasks != {} ==> k.current in k.tasks)
    && (k.running ==> k.idle in k.tasks && Generic(k.items, k.idle).Ready?)
  }

  ghost predicate Core(k: Kernel) {
    && Placed(k.items) && Live(k.items, k.tasks, k.suspended)
    && Levelled(k.items, k.priority, k.topReady, k.levels)
    && Timed(k) && Counted(k) && Populated(k)
  }

  ghost predicate Inv(k: Kernel) {
    Core(k) && Settled(k)
  }

  /** Processed ticks, however often the tick count has wrapped. */
  function Clock(k: Kernel): nat { k.overflows * k.modulus + k.tick }

  // ---- the delayed lists while a tick is processed ----

  lemma DelayedMembers(s: Items, t: Task, b: bool)
    requires Placed(s)
    ensures t in At(s, Delayed(b)) <==> Generic(s, t) == Delayed(b)
  {
    assert t in At(s, Delayed(b)) <==> HasPlace(s, t, Delayed(b));
  }

  /** What is known while the tick count is being advanced. */
  ghost predicate TickInv(k: Kernel, low: nat) {
    Placed(k.items) && Bounded(k) && TimedFrom(k, low)
  }

  /** The head of an ascending list has the least value of all members. */
  lemma HeadValueBounds(k: Kernel)
    requires Placed(k.items) && Bounded(k) && Ascending(k.wakeValue, CurrentDelayed(k))
    requires forall t :: Generic(k.items, t) == Delayed(k.second) ==> Wake(k, t) < k.modulus
    ensures HeadValue(k) < k.modulus
    ensures forall t :: Generic(k.items, t) == Delayed(k.second) ==> HeadValue(k) <= Wake(k, t)
    ensures CurrentDelayed(k) == [] || exists t :: Generic(k.items, t) == Delayed(k.second) && HeadValue(k) == Wake(k, t)
  {
    var s := CurrentDelayed(k);
    forall t
      ensures t in s <==> Generic(k.items, t) == Delayed(k.second)
    {
      DelayedMembers(k.items, t, k.second);
    }
    if s != [] {
      assert s[0] in s;
    }
  }

  /** The assertion of vTaskIncrementTick: when the count wraps the current list is empty. */
  lemma EmptyAtWrap(k: Kernel)
    requires Placed(k.items) && Timed(k) && k.tick + 1 == k.modulus
    ensures CurrentDelayed(k) == []
  {
    var s := CurrentDelayed(k);
    if s != [] {
      assert s[0] in s;
      DelayedMembers(k.items, s[0], k.second);
      assert false;
    }
  }

  lemma AdvanceTickKeeps(k: Kernel)
    requires Placed(k.items) && Timed(k)
    ensures TickInv(AdvanceTick(k), AdvanceTick(k).tick)
  {
    if k.tick + 1 == k.modulus {
      EmptyAtWrap(k);
      forall t
        ensures Generic(k.items, t) != Delayed(k.second)
      {
        DelayedMembers(k.items, t, k.second);
      }
      var k1 := k.(tick := 0, second := !k.second, overflows := k.overflows + 1);
      HeadValueBounds(k1);
    }
  }

  ghost function DueTasks(k: Kernel): seq<Task> { CurrentDelayed(k)[..DueCount(k)] }

  /** The prefix that is readied holds exactly the tasks whose time has come. */
  lemma DueMembers(k: Kernel)
    requires Placed(k.items) && Ascending(k.wakeValue, CurrentDelayed(k))
    ensures NoDup(DueTasks(k))
    ensures forall t :: t in DueTasks(k) <==> Generic(k.items, t) == Delayed(k.second) && Wake(k, t) <= k.tick
  {
    var s, n := CurrentDelayed(k), DueCount(k);
    var vs := Values(k.wakeValue, s);
    forall t
      ensures t in s[..n] <==> t in s && Wake(k, t) <= k.tick
      ensures t in s <==> Generic(k.items, t) == Delayed(k.second)
    {
      DelayedMembers(k.items, t, k.second);
      if i :| 0 <= i < |s| && s[i] == t {
        assert vs[i] == Wake(k, t);
        if i < n {
          assert s[..n][i] == t;
        } else {
          assert vs[n] == Wake(k, s[n]) <= vs[i];
        }
      }
    }
    assert NoDup(At(k.items, Delayed(k.second)));
  }

  /** The cached unblock time only saves work: readying the due tasks is what always happens. */
  lemma CheckDelayedReadies(k: Kernel)
    requires TickInv(k, k.tick)
    ensures var r := CheckDelayed(k);
            r == ReadyAll(k, DueTasks(k)).(nextUnblock := r.nextUnblock)
  {
    if k.tick < k.nextUnblock {
      DueMembers(k);
      var vs := Values(k.wakeValue, CurrentDelayed(k));
      forall i | 0 <= i < |vs|
        ensures k.tick < vs[i]
      {
        DelayedMembers(k.items, CurrentDelayed(k)[i], k.second);
      }
    }
  }

  lemma TailAscends(vs: map<Task, nat>, s: seq<Task>, n: nat)
    requires Ascending(vs, s) && n <= |s|
    ensures Ascending(vs, s[n..])
  {
  }

  lemma ReadyDuePlaced(k: Kernel)
    requires TickInv(k, k.tick)
    ensures var r := ReadyAll(k, DueTasks(k));
            && Placed(r.items) && RingsAfter(k.items, r.items, DueTasks(k), k.priority)
            && CurrentDelayed(r) == CurrentDelayed(k)[DueCount(k)..]
            && OverflowDelayed(r) == OverflowDelayed(k)
  {
    hide Placed, RingsAfter, At, UnblockAll, NoDup;
    DueMembers(k);
    UnblockPrefix(k.items, Delayed(k.second), DueCount(k), k.priority);
    UnblockAllEffect(k.items, DueTasks(k), k.priority);
  }

  lemma ReadyDueKeepsTimes(k: Kernel)
    requires TickInv(k, k.tick)
    ensures TimedFrom(ReadyAll(k, DueTasks(k)), k.tick + 1)
  {
    hide Placed, RingsAfter, At, UnblockAll, NoDup;
    DueMembers(k);
    ReadyDuePlaced(k);
    UnblockAllPlaces(k.items, DueTasks(k), k.priority);
    TailAscends(k.wakeValue, CurrentDelayed(k), DueCount(k));
  }

  lemma CheckDelayedKeeps(k: Kernel)
    requires TickInv(k, k.tick)
    ensures var r := CheckDelayed(k); Placed(r.items) && Timed(r)
  {
    hide Placed, At, UnblockAll, DueCount, RaisedBy;
    if k.nextUnblock <= k.tick {
      var r1 := ReadyAll(k, DueTasks(k));
      ReadyDuePlaced(k);
      ReadyDueKeepsTimes(k);
      HeadValueBounds(r1);
      assert CheckDelayed(k) == r1.(nextUnblock := HeadValue(r1));
    }
  }

  // ---- blocked tasks become ready ----

  lemma {:induction false} RaisedByBounds(top: nat, ts: seq<Task>, priority: map<Task, nat>, levels: nat)
    requires top < levels && forall t :: Value(priority, t) < levels
    ensures top <= RaisedBy(top, ts, priority) < levels
    ensures forall t :: t in ts ==> Value(priority, t) <= RaisedBy(top, ts, priority)
    decreases |ts|
  {
    if ts != [] {
      RaisedByBounds(Raised(top, Value(priority, ts[0])), ts[1..], priority, levels);
      assert forall t :: t in ts ==> t == ts[0] || t in ts[1..];
    }
  }

  lemma ReadyAllKeepsLevels(k: Kernel, ts: seq<Task>)
    requires Levelled(k.items, k.priority, k.topReady, k.levels)
    ensures var r := ReadyAll(k, ts); Levelled(r.items, r.priority, r.topReady, r.levels)
  {
    hide Generic, Value;
    UnblockAllPlaces(k.items, ts, k.priority);
    RaisedByBounds(k.topReady, ts, k.priority, k.levels);
  }

  lemma ReadyAllKeepsLive(k: Kernel, ts: seq<Task>, suspended: nat)
    requires Live(k.items, k.tasks, suspended) && forall t :: t in ts ==> Generic(k.items, t).Delayed?
    ensures Live(ReadyAll(k, ts).items, k.tasks, suspended)
    ensures (forall t :: EventPlace(k.items, t) == Pending ==> t in ts) ==> Live(ReadyAll(k, ts).items, k.tasks, 0)
  {
    hide Generic, EventPlace;
    UnblockAllPlaces(k.items, ts, k.priority);
  }

  lemma ReadyAllKeepsPopulation(k: Kernel, ts: seq<Task>)
    requires Counted(k) && Populated(k) && forall t :: t in ts ==> Generic(k.items, t).Delayed?
    requires RingsAfter(k.items, ReadyAll(k, ts).items, ts, k.priority)
    ensures Counted(ReadyAll(k, ts)) && Populated(ReadyAll(k, ts))
  {
    UnblockAllPlaces(k.items, ts, k.priority);
  }

  lemma WithoutAscends(vs: map<Task, nat>, s: seq<Task>, t: Task)
    requires Ascending(vs, s)
    ensures Ascending(vs, Without(s, t))
  {
  }

  lemma {:induction false} UnblockAllAscends(s: Items, ts: seq<Task>, priority: map<Task, nat>, vs: map<Task, nat>, l: Place)
    requires Placed(s) && NoDup(ts) && l.Delayed? && Ascending(vs, At(s, l))
    requires forall t :: t in ts ==> Generic(s, t).Delayed?
    ensures Ascending(vs, At(UnblockAll(s, ts, priority), l))
    decreases |ts|
  {
    hide Placed, Ascending;
    if ts != [] {
      var p := Value(priority, ts[0]);
      UnblockEffect(s, ts[0], p);
      WithoutAscends(vs, At(s, l), ts[0]);
      UnblockAllAscends(Unblock(s, ts[0], p), ts[1..], priority, vs, l);
    }
  }

  ghost predicate AllBlocked(s: Items, ts: seq<Task>) {
    NoDup(ts) && forall t :: t in ts ==> Generic(s, t).Delayed?
  }

  lemma ReadyAllLists(k: Kernel, ts: seq<Task>)
    requires Placed(k.items) && Timed(k) && AllBlocked(k.items, ts)
    ensures var r := ReadyAll(k, ts);
            && Placed(r.items) && RingsAfter(k.items, r.items, ts, k.priority)
            && Ascending(k.wakeValue, CurrentDelayed(r)) && Ascending(k.wakeValue, OverflowDelayed(r))
  {
    hide Placed, At, RingsAfter, Ascending, NoDup, UnblockAll;
    UnblockAllEffect(k.items, ts, k.priority);
    UnblockAllAscends(k.items, ts, k.priority, k.wakeValue, Delayed(k.second));
    UnblockAllAscends(k.items, ts, k.priority, k.wakeValue, Delayed(!k.second));
  }

  lemma ReadyAllKeepsTimed(k: Kernel, ts: seq<Task>)
    requires Placed(k.items) && Timed(k) && AllBlocked(k.items, ts)
    ensures Timed(ReadyAll(k, ts))
  {
    hide Placed, At, RingsAfter, Ascending, NoDup, UnblockAll, RaisedBy, AllBlocked;
    ReadyAllLists(k, ts);
    UnblockAllPlaces(k.items, ts, k.priority);
  }

  // ---- ticks ----

  lemma NextEpoch(overflows: nat, modulus: nat)
    ensures (overflows + 1) * modulus == overflows * modulus + modulus
  {
  }

  lemma AdvanceTickFrame(k: Kernel)
    requires Bounded(k)
    ensures var r := AdvanceTick(k);
            && Clock(r) == Clock(k) + 1
            && r == k.(nextUnblock := r.nextUnblock, second := r.second, tick := r.tick, overflows := r.overflows)
  {
    hide HeadValue;
    NextEpoch(k.overflows, k.modulus);
  }

  lemma AdvanceTickKeepsCore(k: Kernel)
    requires Core(k)
    ensures var r := AdvanceTick(k);
            && TickInv(r, r.tick) && Live(r.items, r.tasks, r.suspended)
            && Levelled(r.items, r.priority, r.topReady, r.levels) && Counted(r) && Populated(r)
  {
    hide Placed, Live, Levelled, TickInv, TimedFrom, HeadValue;
    AdvanceTickKeeps(k);
    AdvanceTickFrame(k);
  }

  lemma CheckDelayedKeepsCore(k: Kernel)
    requires TickInv(k, k.tick) && Live(k.items, k.tasks, k.suspended)
    requires Levelled(k.items, k.priority, k.topReady, k.levels) && Counted(k) && Populated(k)
    ensures Core(CheckDelayed(k))
  {
    hide Placed, Levelled, RingsAfter, Live;
    var due := DueTasks(k);
    DueMembers(k);
    CheckDelayedReadies(k);
    CheckDelayedKeeps(k);
    ReadyDuePlaced(k);
    ReadyAllKeepsLevels(k, due);
    ReadyAllKeepsLive(k, due, k.suspended);
    ReadyAllKeepsPopulation(k, due);
  }

  lemma TickKeepsCore(k: Kernel)
    requires Core(k)
    ensures Core(Tick(k))
  {
    hide Placed, Levelled, Live;
    if k.suspended == 0 {
      AdvanceTickKeepsCore(k);
      CheckDelayedKeepsCore(AdvanceTick(k));
    }
  }

  lemma CheckDelayedFrame(k: Kernel)
    ensures var r := CheckDelayed(k);
            r == k.(items := r.items, topReady := r.topReady, nextUnblock := r.nextUnblock)
  {
    hide HeadValue, DueCount, UnblockAll, RaisedBy;
    if k.nextUnblock <= k.tick {
      assert CheckDelayed(k).items == ReadyAll(k, DueTasks(k)).items;
    }
  }

  /** A processed tick moves the clock by one and touches nothing outside the lists. */
  lemma TickFrame(k: Kernel)
    requires k.suspended == 0 && Bounded(k)
    ensures var r := Tick(k);
            && Clock(r) == Clock(k) + 1
            && r == k.(items := r.items, topReady := r.topReady, nextUnblock := r.nextUnblock,
                       second := r.second, tick := r.tick, overflows := r.overflows)
  {
    hide AdvanceTick, CheckDelayed;
    AdvanceTickFrame(k);
    CheckDelayedFrame(AdvanceTick(k));
  }

  // ---- choosing a task ----

  lemma RotatedMembers(ring: seq<Task>)
    requires ring != [] && NoDup(ring)
    ensures NoDup(ring[1..] + ring[..1])
    ensures forall t :: t in ring[1..] + ring[..1] <==> t in ring
  {
    forall t
      ensures t in ring ==> t in ring[1..] + ring[..1]
    {
      if t in ring && t != ring[0] {
        var i :| 0 < i < |ring| && ring[i] == t;
        assert ring[1..][i - 1] == t;
      }
    }
  }

  lemma RotatedPlaced(s: Items, p: nat)
    requires Placed(s)
    ensures Placed(Rotated(s, p))
  {
    var ring := At(s, Ready(p));
    if ring != [] {
      assert NoDup(ring);
      RotatedMembers(ring);
      var r := Rotated(s, p);
      assert forall t :: Generic(r, t) == Generic(s, t);
      assert forall t :: EventPlace(r, t) == EventPlace(s, t);
      assert forall t, l :: HasPlace(r, t, l) == HasPlace(s, t, l);
    }
  }

  lemma RingMembers(k: Kernel, t: Task, p: nat)
    requires Placed(k.items)
    ensures t in Ring(k, p) <==> Generic(k.items, t) == Ready(p)
  {
    assert t in At(k.items, Ready(p)) <==> HasPlace(k.items, t, Ready(p));
  }

  /** The search stops at the highest non-empty ring, so at a level that has one at the latest. */
  lemma {:induction false} TopNonEmptyIsTop(k: Kernel, p: nat, q: nat)
    requires q <= p && Ring(k, q) != []
    ensures Ring(k, TopNonEmpty(k, p)) != [] && q <= TopNonEmpty(k, p) <= p
    ensures forall r :: TopNonEmpty(k, p) < r <= p ==> Ring(k, r) == []
  {
    hide Ring;
    if p > 0 && Ring(k, p) == [] {
      TopNonEmptyIsTop(k, p - 1, q);
    }
  }

  /** The idle task is always ready, at whatever priority it has. */
  lemma IdleIsReady(k: Kernel)
    requires Core(k) && k.running
    ensures Ring(k, Priority(k, k.idle)) != [] && Priority(k, k.idle) <= k.topReady
  {
    hide Timed, Live, Counted;
    RingMembers(k, k.idle, Priority(k, k.idle));
  }

  /** After a context switch the running task is a ready task of the highest priority, the
      one whose turn it is, and its ring has turned by one. */
  lemma SwitchSelectsHighest(k: Kernel)
    requires Core(k) && k.running && k.suspended == 0
    ensures var r := SwitchContext(k);
            && Generic(r.items, r.current) == Ready(Priority(r, r.current)) == Ready(r.topReady)
            && (forall t :: Generic(r.items, t).Ready? ==> Priority(r, t) <= Priority(r, r.current))
            && r.topReady <= k.topReady
    ensures var r, p := SwitchContext(k), SwitchContext(k).topReady;
            && Ring(k, p) != [] && r.current == Ring(k, p)[0]
            && Ring(r, p) == Ring(k, p)[1..] + [r.current]
            && (forall l :: l != Ready(p) ==> At(r.items, l) == At(k.items, l))
  {
    IdleIsReady(k);
    TopNonEmptyIsTop(k, k.topReady, Priority(k, k.idle));
    var r := SwitchContext(k);
    var p := r.topReady;
    RingMembers(k, r.current, p);
    forall t | Generic(r.items, t).Ready?
      ensures Priority(r, t) <= p
    {
      assert Generic(r.items, t) == Generic(k.items, t);
      RingMembers(k, t, Priority(k, t));
    }
  }

  lemma SwitchKeepsCore(k: Kernel)
    requires Core(k) && k.running
    ensures Core(SwitchContext(k))
    ensures k.suspended == 0 && Settled(k) ==> Settled(SwitchContext(k))
  {
    hide Placed, TopNonEmpty, Timed, At;
    var r := SwitchContext(k);
    if k.suspended == 0 {
      SwitchSelectsHighest(k);
      RotatedPlaced(k.items, r.topReady);
      RotatedTimes(k, r.topReady);
      TimedIsAboutTimes(k.(items := r.items), r);
      assert forall t :: Generic(r.items, t) == Generic(k.items, t) && EventPlace(r.items, t) == EventPlace(k.items, t);
    } else {
      CoreIgnoresMisses(k, k.missedTicks, true);
    }
  }

  lemma RotatedTimes(k: Kernel, p: nat)
    requires Timed(k)
    ensures Timed(k.(items := Rotated(k.items, p)))
  {
    assert forall t :: Generic(Rotated(k.items, p), t) == Generic(k.items, t);
  }

  // ---- resuming the scheduler ----

  lemma PendingMembers(k: Kernel)
    requires Placed(k.items) && Live(k.items, k.tasks, k.suspended)
    ensures NoDup(At(k.items, Pending))
    ensures forall t :: t in At(k.items, Pending) <==> EventPlace(k.items, t) == Pending
    ensures forall t :: t in At(k.items, Pending) ==> Generic(k.items, t).Delayed?
  {
    assert forall t :: t in At(k.items, Pending) <==> HasPlace(k.items, t, Pending);
  }

  /** What xTaskResumeAll has when the pending list is drained and the ticks are still to come. */
  ghost function Drained(k: Kernel): Kernel
    requires k.suspended > 0
  {
    ReadyAll(k.(suspended := k.suspended - 1), At(k.items, Pending))
  }

  lemma DrainedKeepsCore(k: Kernel)
    requires Core(k) && k.suspended == 1
    ensures Core(Drained(k))
  {
    hide Placed, At, RingsAfter, Levelled, Timed, NoDup;
    var k1, ts := k.(suspended := k.suspended - 1), At(k.items, Pending);
    PendingMembers(k);
    assert Timed(k1) by { TimedIsAboutTimes(k, k1); }
    ReadyAllLists(k1, ts);
    ReadyAllKeepsTimed(k1, ts);
    ReadyAllKeepsLevels(k1, ts);
    ReadyAllKeepsLive(k1, ts, 1);
    ReadyAllKeepsPopulation(k1, ts);
  }

  lemma TimedIsAboutTimes(k: Kernel, r: Kernel)
    requires Timed(k) && r.items == k.items && r.wakeValue == k.wakeValue && r.nextUnblock == k.nextUnblock
    requires r.modulus == k.modulus && r.tick == k.tick && r.second == k.second
    ensures Timed(r)
  {
  }

  lemma {:induction false} CatchUpKeepsCore(k: Kernel, n: nat)
    requires Core(k) && k.suspended == 0
    ensures var r := CatchUp(k, n);
            && Core(r) && Clock(r) == Clock(k) + n
            && r == k.(items := r.items, topReady := r.topReady, nextUnblock := r.nextUnblock,
                       second := r.second, tick := r.tick, overflows := r.overflows)
    decreases n
  {
    hide Core, Clock, Tick;
    if n > 0 {
      TickOfCore(k);
      CatchUpKeepsCore(Tick(k), n - 1);
    }
  }

  lemma TickOfCore(k: Kernel)
    requires Core(k) && k.suspended == 0
    ensures var r := Tick(k);
            && Core(r) && Clock(r) == Clock(k) + 1
            && r == k.(items := r.items, topReady := r.topReady, nextUnblock := r.nextUnblock,
                       second := r.second, tick := r.tick, overflows := r.overflows)
  {
    hide Placed, Live, Levelled, Counted, Populated, TimedFrom, Tick, Clock;
    TickKeepsCore(k);
    TickFrame(k);
  }

  lemma CoreIgnoresMisses(k: Kernel, ticks: nat, missed: bool)
    requires Core(k)
    ensures Core(k.(missedTicks := ticks, missedYield := missed))
  {
    hide Placed, Live, Levelled;
  }

  lemma NestedResume(k: Kernel)
    requires Core(k) && k.suspended > 1
    ensures Core(k.(suspended := k.suspended - 1))
  {
    hide Placed, Levelled;
  }

  /** The outermost resume processes every missed tick. */
  lemma ResumedKeepsCore(k: Kernel)
    requires Core(k) && k.running && k.suspended > 0
    ensures var r := Resumed(k);
            && Core(r) && r.suspended == k.suspended - 1 && r.running && r.missedYield == k.missedYield
            && Clock(r) + r.missedTicks == Clock(k) + k.missedTicks && Clock(k) <= Clock(r)
            && (r.suspended == 0 ==> r.missedTicks == 0)
            && r.priority == k.priority && r.basePriority == k.basePriority && r.eventValue == k.eventValue
            && r.current == k.current && r.modulus == k.modulus && r.levels == k.levels && r.tasks == k.tasks && r.idle == k.idle
  {
    TasksCounted(k);
    if k.suspended > 1 {
      NestedResume(k);
    } else {
      hide Core, CatchUp;
      DrainedKeepsCore(k);
      CatchUpKeepsCore(Drained(k), k.missedTicks);
      CoreIgnoresMisses(CatchUp(Drained(k), k.missedTicks), 0, k.missedYield);
    }
  }

  lemma TasksCounted(k: Kernel)
    requires Core(k) && k.running
    ensures k.taskCount > 0
  {
    hide Placed, Live, Levelled, Timed;
    assert k.tasks != {};
  }

  // ---- blocking ----

  lemma InsertAscends(vs: map<Task, nat>, s: seq<Task>, t: Task, v: nat)
    requires Ascending(vs, s) && t !in s
    ensures Ascending(vs[t := v], InsertAt(s, InsertPosition(Values(vs, s), v), t))
    ensures Ascending(vs[t := v], s)
  {
    var p, ws := InsertPosition(Values(vs, s), v), vs[t := v];
    assert forall i :: 0 <= i < |s| ==> Value(ws, s[i]) == Value(vs, s[i]) == Values(vs, s)[i];
    assert forall i :: p <= i < |s| ==> Values(vs, s)[p] <= Values(vs, s)[i];
    var r := InsertAt(s, p, t);
    forall i, j | 0 <= i < j < |r|
      ensures Value(ws, r[i]) <= Value(ws, r[j])
    {
    }
  }

  /** Which delayed list a delay of `ticks` leads to. */
  function DelayList(k: Kernel, ticks: nat): Place {
    Delayed(if k.tick + ticks < k.modulus then k.second else !k.second)
  }

  lemma DelayArithmetic(k: Kernel, ticks: nat)
    requires Bounded(k) && 0 < ticks < k.modulus
    ensures var v := (k.tick + ticks) % k.modulus;
            if k.tick + ticks < k.modulus then v == k.tick + ticks else v == k.tick + ticks - k.modulus < k.tick
  {
  }

  /** The current task goes from its ready list to a delayed list. */
  lemma DelayPlaced(k: Kernel, ticks: nat)
    requires Placed(k.items) && Bounded(k) && 0 < ticks < k.modulus
    requires Generic(k.items, k.current).Ready?
    ensures var r := Delay(k, ticks);
            && Placed(r.items)
            && (forall x :: Generic(r.items, x) == if x == k.current then DelayList(k, ticks) else Generic(k.items, x))
            && (forall x :: EventPlace(r.items, x) == EventPlace(k.items, x))
            && At(r.items, Terminating) == At(k.items, Terminating)
  {
    hide Placed, WakePosition, Rotated, Values;
    DelayArithmetic(k, ticks);
    var k1 := k.(items := TakeGeneric(k.items, k.current));
    TakeGenericPlaced(k.items, k.current);
    var l, v := DelayList(k, ticks), (k.tick + ticks) % k.modulus;
    PutGenericPlaced(k1.items, k.current, l, WakePosition(k1, l, v));
  }

  /** It goes in by wake value there, and the other delayed list is as it was. */
  lemma DelayLists(k: Kernel, ticks: nat)
    requires Bounded(k) && 0 < ticks < k.modulus && Generic(k.items, k.current).Ready?
    ensures var r, l, v := Delay(k, ticks), DelayList(k, ticks), (k.tick + ticks) % k.modulus;
            && At(r.items, l) == InsertAt(At(k.items, l), InsertPosition(Values(k.wakeValue, At(k.items, l)), v), k.current)
            && At(r.items, Delayed(!l.second)) == At(k.items, Delayed(!l.second))
            && r.wakeValue == k.wakeValue[k.current := v]
  {
    DelayArithmetic(k, ticks);
  }

  lemma DelayAscends(k: Kernel, ticks: nat)
    requires Placed(k.items) && Timed(k) && 0 < ticks < k.modulus
    requires Generic(k.items, k.current).Ready?
    ensures var r := Delay(k, ticks);
            Ascending(r.wakeValue, CurrentDelayed(r)) && Ascending(r.wakeValue, OverflowDelayed(r))
  {
    hide Ascending, Placed, At, Delay, InsertPosition;
    DelayFrame(k, ticks);
    DelayLists(k, ticks);
    var c, v := k.current, (k.tick + ticks) % k.modulus;
    DelayedMembers(k.items, c, true);
    DelayedMembers(k.items, c, false);
    InsertAscends(k.wakeValue, CurrentDelayed(k), c, v);
    InsertAscends(k.wakeValue, OverflowDelayed(k), c, v);
  }

  lemma DelayFrame(k: Kernel, ticks: nat)
    requires k.modulus > 0
    ensures var r := Delay(k, ticks);
            r == k.(items := r.items, wakeValue := r.wakeValue, nextUnblock := r.nextUnblock)
  {
    hide WakePosition, PutGeneric;
  }

  lemma DelayTimed(k: Kernel, ticks: nat)
    requires Placed(k.items) && Timed(k) && 0 < ticks < k.modulus
    requires Generic(k.items, k.current).Ready?
    ensures Timed(Delay(k, ticks))
  {
    hide Placed, Ascending, At, WakePosition;
    DelayArithmetic(k, ticks);
    DelayPlaced(k, ticks);
    DelayAscends(k, ticks);
  }

  ghost predicate MayBlock(k: Kernel, ticks: nat) {
    k.running && k.suspended > 0 && 0 < ticks < k.modulus && k.current != k.idle && Generic(k.items, k.current).Ready?
  }

  lemma DelayKeepsCore(k: Kernel, ticks: nat)
    requires Core(k) && MayBlock(k, ticks)
    ensures Core(Delay(k, ticks))
  {
    hide Placed, Timed, At;
    assert Bounded(k) by { BoundedOfCore(k); }
    DelayPlaced(k, ticks);
    DelayTimed(k, ticks);
  }

  lemma BoundedOfCore(k: Kernel)
    requires Core(k)
    ensures Bounded(k)
  {
  }

  lemma PlaceOnEventListKeepsCore(k: Kernel, q: nat, ticks: nat)
    requires Core(k) && MayBlock(k, ticks)
    ensures Core(PlaceOnEventList(k, q, ticks))
  {
    hide Placed, Timed, At, Levelled, Delay, EventPosition;
    BoundedOfCore(k);
    var p := EventPosition(k, q, Value(k.eventValue, k.current));
    var k1 := k.(items := PutEvent(k.items, k.current, Event(q), p));
    PutEventPlaced(k.items, k.current, Event(q), p);
    EventsLeaveTimes(k, k1.items);
    DelayPlaced(k1, ticks);
    DelayTimed(k1, ticks);
    DelayFrame(k1, ticks);
    assert Levelled(Delay(k1, ticks).items, k.priority, k.topReady, k.levels) by {
      LevelsOfBlocked(k, Delay(k1, ticks).items);
    }
  }

  lemma LevelsOfBlocked(k: Kernel, s: Items)
    requires Levelled(k.items, k.priority, k.topReady, k.levels)
    requires forall x :: Generic(s, x) == Generic(k.items, x) || !Generic(s, x).Ready?
    ensures Levelled(s, k.priority, k.topReady, k.levels)
  {
  }

  /** Event items have no part in the delayed lists. */
  lemma EventsLeaveTimes(k: Kernel, s: Items)
    requires Timed(k) && forall x :: Generic(s, x) == Generic(k.items, x)
    requires forall l: Place :: !ForEvents(l) ==> At(s, l) == At(k.items, l)
    ensures Timed(k.(items := s)) && At(s, Terminating) == At(k.items, Terminating)
  {
  }
}
