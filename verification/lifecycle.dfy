/**
 * The operations that wake, create, delete and re-prioritise tasks keep the invariant.
 */
module Lifecycle {
  import opened Seqs
  import opened Items
  import opened Tasks
  import opened Kernel
  import opened Invariant

  // ---- waking the first waiter of an event list ----

  lemma FirstWaiter(k: Kernel, q: nat)
    requires Core(k) && At(k.items, Event(q)) != []
    ensures var t := At(k.items, Event(q))[0];
            EventPlace(k.items, t) == Event(q) && Generic(k.items, t).Delayed? && t in k.tasks
  {
    var t := At(k.items, Event(q))[0];
    assert t in At(k.items, Event(q)) && HasPlace(k.items, t, Event(q));
  }

  /** Waking with the scheduler running: the waiter goes to the end of its ring. */
  lemma WakeIsUnblock(s: Items, t: Task, p: nat)
    requires EventPlace(s, t) != Nowhere && Generic(s, t) != EventPlace(s, t)
    ensures AppendGeneric(TakeGeneric(TakeEvent(s, t), t), t, Ready(p)) == Unblock(s, t, p)
  {
    var g, e := Generic(s, t), EventPlace(s, t);
    var a, b := TakeGeneric(TakeEvent(s, t), t), TakeEvent(TakeGeneric(s, t), t);
    assert a.generic == b.generic && a.event == b.event;
    assert a.lists == b.lists;
  }

  lemma WakeReadies(k: Kernel, q: nat)
    requires Core(k) && At(k.items, Event(q)) != [] && k.suspended == 0
    ensures RemoveFromEventList(k, q) == ReadyAll(k, [At(k.items, Event(q))[0]])
  {
    hide Placed, Levelled, Timed, Counted, Live;
    var t, p := At(k.items, Event(q))[0], Priority(k, At(k.items, Event(q))[0]);
    FirstWaiter(k, q);
    WakeIsUnblock(k.items, t, p);
    assert [t][1..] == [];
    assert RaisedBy(k.topReady, [t], k.priority) == Raised(k.topReady, p);
    assert UnblockAll(k.items, [t], k.priority) == Unblock(k.items, t, p);
  }

  /** Tasks that become ready one after another leave the rest of the invariant alone. */
  lemma ReadyAllKeepsCore(k: Kernel, ts: seq<Task>)
    requires Core(k) && AllBlocked(k.items, ts)
    ensures Core(ReadyAll(k, ts))
  {
    hide Placed, Live, Levelled, Timed, Counted, Populated, RingsAfter, NoDup;
    ReadyAllLists(k, ts);
    ReadyAllKeepsTimed(k, ts);
    ReadyAllKeepsLevels(k, ts);
    ReadyAllKeepsLive(k, ts, k.suspended);
    ReadyAllKeepsPopulation(k, ts);
  }

  lemma RemoveFromEventListKeepsCore(k: Kernel, q: nat)
    requires Core(k) && At(k.items, Event(q)) != []
    ensures Core(RemoveFromEventList(k, q))
  {
    FirstWaiter(k, q);
    if k.suspended == 0 {
      hide Core;
      WakeReadies(k, q);
      ReadyAllKeepsCore(k, [At(k.items, Event(q))[0]]);
    } else {
      WokenToPending(k, q);
    }
  }

  lemma WokenToPending(k: Kernel, q: nat)
    requires Core(k) && At(k.items, Event(q)) != [] && k.suspended > 0
    ensures Core(RemoveFromEventList(k, q))
  {
    hide Placed, Timed, At;
    FirstWaiter(k, q);
    var t := At(k.items, Event(q))[0];
    var s := TakeEvent(k.items, t);
    TakeEventPlaced(k.items, t);
    PutEventPlaced(s, t, Pending, |At(s, Pending)|);
    EventsLeaveTimes(k, PutEvent(s, t, Pending, |At(s, Pending)|));
  }

  // ---- creation and deletion ----

  lemma LevelsOfNew(k: Kernel, t: Task, p: nat)
    requires Levelled(k.items, k.priority, k.topReady, k.levels) && p < k.levels && !Generic(k.items, t).Ready?
    ensures Levelled(AppendGeneric(k.items, t, Ready(p)), k.priority[t := p], Raised(k.topReady, p), k.levels)
  {
    LevelsOfOther(k.items, k.priority, t, p, k.topReady, k.levels);
  }

  lemma CreateKeepsLists(k: Kernel, t: Task, priority: nat)
    requires Core(k) && t !in k.tasks
    ensures var r := Create(k, t, priority);
            Placed(r.items) && Levelled(r.items, r.priority, r.topReady, r.levels) && Timed(r)
  {
    hide Placed, Timed, Levelled, At, Capped, EventRank;
    var p := Capped(k.levels, priority);
    LevelsPositive(k);
    PutGenericPlaced(k.items, t, Ready(p), |At(k.items, Ready(p))|);
    LevelsOfNew(k, t, p);
    ReadyLeavesTimes(k, t, AppendGeneric(k.items, t, Ready(p)));
    var r := Create(k, t, priority);
    TimedIsAboutTimes(k.(items := r.items), r);
  }

  lemma CreateKeepsPopulation(k: Kernel, t: Task, priority: nat)
    requires Core(k) && t !in k.tasks
    ensures var r := Create(k, t, priority); Live(r.items, r.tasks, r.suspended) && Counted(r) && Populated(r)
  {
    hide Placed, Timed, Levelled, Capped, EventRank;
    var r := Create(k, t, priority);
    assert r.tasks == k.tasks + {t};
    assert forall x :: Generic(r.items, x) == if x == t then Ready(Capped(k.levels, priority)) else Generic(k.items, x);
  }

  lemma CreateKeepsCore(k: Kernel, t: Task, priority: nat)
    requires Core(k) && t !in k.tasks
    ensures var r, p := Create(k, t, priority), if priority < k.levels then priority else k.levels - 1;
            && Core(r) && Priority(r, t) == p == Value(r.basePriority, t)
            && Ring(r, p) == Ring(k, p) + [t] && r.tasks == k.tasks + {t} && r.taskCount == |r.tasks|
  {
    hide Placed, Timed, Levelled, Live, Populated, At;
    CreateKeepsLists(k, t, priority);
    CreateKeepsPopulation(k, t, priority);
    LevelsPositive(k);
  }

  ghost predicate BestIsCurrent(k: Kernel) {
    forall x :: x in k.tasks ==> Priority(k, x) <= Priority(k, k.current)
  }

  /** Until the scheduler runs the current task is the best one created so far, and the last
      of them among equals: it is the one that will run first. */
  lemma CreateChoosesBest(k: Kernel, t: Task, priority: nat)
    requires Core(k) && t !in k.tasks && !k.running && BestIsCurrent(k)
    ensures var r := Create(k, t, priority);
            BestIsCurrent(r) && (r.current == t <==> k.tasks == {} || Priority(k, k.current) <= Priority(r, t))
  {
    hide Placed, Live, Timed, At;
    PrioritiesBounded(k, k.current);
    var r, p := Create(k, t, priority), Capped(k.levels, priority);
    forall x
      ensures Priority(r, x) == if x == t then p else Priority(k, x)
    {
    }
  }

  lemma StartKeepsCore(k: Kernel, idle: Task)
    requires Core(k) && idle !in k.tasks && !k.running && k.tick == 0
    ensures var r := Start(k, idle);
            && Core(r) && r.running && r.idle == idle && r.tick == 0
            && Priority(r, idle) == 0 && Ring(r, 0) == Ring(k, 0) + [idle]
  {
    hide Placed, Live, Levelled, Timed, At;
    CreateKeepsCore(k, idle, 0);
    LevelsPositive(k);
    TimedIsAboutTimes(Create(k, idle, 0), Start(k, idle));
  }

  lemma LevelsPositive(k: Kernel)
    requires Core(k)
    ensures k.levels > 0
    ensures forall p :: Capped(k.levels, p) < k.levels
  {
  }

  /** An item that comes from outside the delayed lists and goes elsewhere leaves them alone. */
  lemma ReadyLeavesTimes(k: Kernel, t: Task, s: Items)
    requires Timed(k) && !Generic(s, t).Delayed? && forall x :: x != t ==> Generic(s, x) == Generic(k.items, x)
    requires forall b :: At(s, Delayed(b)) == At(k.items, Delayed(b))
    ensures Timed(k.(items := s))
  {
  }

  lemma DeleteKeepsCore(k: Kernel, t: Task)
    requires Core(k) && t in k.tasks && Generic(k.items, t) != Terminating && (k.running ==> t != k.idle)
    ensures Core(Delete(k, t))
    ensures var r := Delete(k, t).items;
            && Generic(r, t) == Terminating && EventPlace(r, t) == Nowhere
            && At(r, Terminating) == At(k.items, Terminating) + [t] && forall l :: l != Terminating ==> t !in At(r, l)
  {
    hide Placed, Timed, Levelled, At;
    var s := TakeBoth(k.items, t);
    TakeBothPlaced(k.items, t);
    PutGenericPlaced(s, t, Terminating, |At(s, Terminating)|);
    DeleteLists(k, t);
    LevelsOfBlocked(k, Delete(k, t).items);
    TimedIsAboutTimes(k.(items := Delete(k, t).items), Delete(k, t));
    OnlyThere(Delete(k, t).items, t);
  }

  /** An item is in no list but the one its container names. */
  lemma OnlyThere(s: Items, t: Task)
    requires Placed(s) && EventPlace(s, t) == Nowhere
    ensures forall l :: l != Generic(s, t) ==> t !in At(s, l)
  {
    assert forall l :: t in At(s, l) <==> HasPlace(s, t, l);
  }

  lemma DeleteLists(k: Kernel, t: Task)
    requires Placed(k.items) && Timed(k) && Generic(k.items, t) != Terminating
    ensures var s := Delete(k, t).items;
            Timed(k.(items := s)) && At(s, Terminating) == At(k.items, Terminating) + [t]
  {
    hide NoDup, Ascending, Placed;
    TakeBothPlaced(k.items, t);
    WithoutAscends(k.wakeValue, CurrentDelayed(k), t);
    WithoutAscends(k.wakeValue, OverflowDelayed(k), t);
    DeleteTimes(k, t, Delete(k, t).items);
  }

  lemma DeleteTimes(k: Kernel, t: Task, s: Items)
    requires Timed(k) && !Generic(s, t).Delayed? && forall x :: x != t ==> Generic(s, x) == Generic(k.items, x)
    requires Ascending(k.wakeValue, At(s, Delayed(true))) && Ascending(k.wakeValue, At(s, Delayed(false)))
    ensures Timed(k.(items := s))
  {
    hide Ascending;
    assert Ascending(k.wakeValue, At(s, Delayed(k.second))) && Ascending(k.wakeValue, At(s, Delayed(!k.second)));
  }

  lemma TerminatingHead(k: Kernel)
    requires Core(k) && At(k.items, Terminating) != []
    ensures var t := At(k.items, Terminating)[0];
            && Generic(k.items, t) == Terminating && t in k.tasks
            && At(TakeGeneric(k.items, t), Terminating) == At(k.items, Terminating)[1..]
    ensures k.taskCount > 0 && k.deletedCount > 0
  {
    hide Levelled, Timed;
    var t := At(k.items, Terminating)[0];
    assert t in At(k.items, Terminating) <==> HasPlace(k.items, t, Terminating);
    assert NoDup(At(k.items, Terminating));
    WithoutHead(At(k.items, Terminating));
    assert t in k.tasks && k.tasks != {};
  }

  lemma ReapKeepsPopulation(k: Kernel)
    requires Core(k) && At(k.items, Terminating) != [] && At(k.items, Terminating)[0] != k.current
    ensures k.taskCount > 0 && k.deletedCount > 0
    ensures var r := Reap(k); Live(r.items, r.tasks, r.suspended) && Counted(r) && Populated(r)
  {
    hide Placed, Levelled, Timed, At;
    TerminatingHead(k);
    var t := At(k.items, Terminating)[0];
    assert |k.tasks - {t}| == |k.tasks| - 1;
  }

  lemma ReapKeepsCore(k: Kernel)
    requires Core(k) && At(k.items, Terminating) != [] && At(k.items, Terminating)[0] != k.current
    ensures k.taskCount > 0 && k.deletedCount > 0 && Core(Reap(k))
    ensures At(Reap(k).items, Terminating) == At(k.items, Terminating)[1..]
    ensures Reap(k).tasks == k.tasks - {At(k.items, Terminating)[0]}
  {
    hide Placed, Live, Levelled, Timed, Counted, Populated;
    var t := At(k.items, Terminating)[0];
    TerminatingHead(k);
    ReapKeepsPopulation(k);
    TakeGenericPlaced(k.items, t);
    LevelsOfBlocked(k, TakeGeneric(k.items, t));
    ReadyLeavesTimes(k, t, TakeGeneric(k.items, t));
    TimedIsAboutTimes(k.(items := Reap(k).items), Reap(k));
  }

  // ---- priority inheritance ----

  /** A task keeps its place in the ready lists when its priority changes with its list. */
  lemma MovedKeepsLists(k: Kernel, t: Task, p: nat)
    requires Core(k) && p < k.levels && Generic(k.items, t).Ready?
    ensures var s := MovedItems(k.items, t, p);
            && Placed(s) && Timed(k.(items := s)) && At(s, Terminating) == At(k.items, Terminating)
            && Levelled(s, k.priority[t := p], Raised(k.topReady, p), k.levels)
  {
    hide Placed, Timed, Levelled, At, Raised;
    TakeGenericPlaced(k.items, t);
    var s := TakeGeneric(k.items, t);
    PutGenericPlaced(s, t, Ready(p), |At(s, Ready(p))|);
    LevelsOfBlocked(k, s);
    LevelsOfNew(k.(items := s), t, p);
    ReadyLeavesTimes(k, t, AppendGeneric(s, t, Ready(p)));
  }

  lemma MovedKeepsCore(k: Kernel, t: Task, p: nat, v: nat)
    requires Core(k) && p < k.levels && Generic(k.items, t).Ready?
    ensures Core(k.(items := MovedItems(k.items, t, p), priority := k.priority[t := p],
                    eventValue := k.eventValue[t := v], topReady := Raised(k.topReady, p)))
  {
    hide Placed, Timed, Levelled, At, MovedItems, Raised;
    MovedKeepsLists(k, t, p);
    var s := MovedItems(k.items, t, p);
    TimedIsAboutTimes(k.(items := s), k.(items := s, priority := k.priority[t := p],
                      eventValue := k.eventValue[t := v], topReady := Raised(k.topReady, p)));
  }

  /** A task that is not ready just takes the priority. */
  lemma RaisedKeepsCore(k: Kernel, t: Task, p: nat, v: nat)
    requires Core(k) && p < k.levels && !Generic(k.items, t).Ready?
    ensures Core(k.(priority := k.priority[t := p], eventValue := k.eventValue[t := v]))
  {
    hide Placed, Live, Timed, Levelled;
    var r := k.(priority := k.priority[t := p], eventValue := k.eventValue[t := v]);
    TimedIsAboutTimes(k, r);
    LevelsOfOther(k.items, k.priority, t, p, k.topReady, k.levels);
  }

  lemma LevelsOfOther(s: Items, priority: map<Task, nat>, t: Task, p: nat, top: nat, levels: nat)
    requires Levelled(s, priority, top, levels) && p < levels && !Generic(s, t).Ready?
    ensures Levelled(s, priority[t := p], top, levels)
  {
    var m := priority[t := p];
    forall x
      ensures Value(m, x) < levels
      ensures Generic(s, x).Ready? ==> Generic(s, x).priority == Value(m, x)
    {
      assert Value(m, x) == if x == t then p else Value(priority, x);
    }
  }

  /** What inheritance changes besides the lists. */
  lemma InheritFields(k: Kernel, h: Task)
    ensures var r, p := Inherit(k, h), Priority(k, k.current);
            && r == k.(items := r.items, topReady := r.topReady, priority := r.priority, eventValue := r.eventValue)
            && r.priority == (if Priority(k, h) < p then k.priority[h := p] else k.priority)
            && r.eventValue == (if Priority(k, h) < p then k.eventValue[h := EventRank(k.levels, p)] else k.eventValue)
  {
    hide MovedItems, Generic, EventRank;
  }

  lemma DisinheritFields(k: Kernel, h: Task)
    ensures var r, b := Disinherit(k, h), Value(k.basePriority, h);
            && r == k.(items := r.items, topReady := r.topReady, priority := r.priority, eventValue := r.eventValue)
            && r.priority == (if Priority(k, h) != b then k.priority[h := b] else k.priority)
            && r.eventValue == (if Priority(k, h) != b then k.eventValue[h := EventRank(k.levels, b)] else k.eventValue)
  {
    hide MovedItems, Generic, EventRank;
  }

  lemma PrioritiesBounded(k: Kernel, t: Task)
    requires Core(k)
    ensures Priority(k, t) < k.levels
    ensures Generic(k.items, t).Ready? ==> Generic(k.items, t) == Ready(Priority(k, t))
  {
  }

  lemma InheritKeepsCore(k: Kernel, h: Task)
    requires Core(k)
    ensures Core(Inherit(k, h))
  {
    hide Core;
    PrioritiesBounded(k, k.current);
    PrioritiesBounded(k, h);
    var p := Priority(k, k.current);
    if Generic(k.items, h).Ready? {
      MovedKeepsCore(k, h, p, EventRank(k.levels, p));
    } else {
      RaisedKeepsCore(k, h, p, EventRank(k.levels, p));
    }
  }

  ghost predicate Living(k: Kernel, t: Task) {
    t in k.tasks && Generic(k.items, t) != Terminating
  }

  /** When the priority of a living task may be dropped: it stays the same, or the task waits for no event. */
  ghost predicate MayDisinherit(k: Kernel, h: Task) {
    Living(k, h) && (Priority(k, h) == Value(k.basePriority, h) || EventPlace(k.items, h) == Nowhere)
  }

  /** A task that only sleeps is readied by it, at its own priority. */
  lemma SleeperDisinherits(k: Kernel, h: Task)
    requires Core(k) && Generic(k.items, h).Delayed? && EventPlace(k.items, h) == Nowhere
    requires Priority(k, h) != Value(k.basePriority, h) && Value(k.basePriority, h) < k.levels
    ensures Core(Disinherit(k, h))
  {
    hide Core, AppendGeneric, TakeGeneric, EventRank;
    var b := Value(k.basePriority, h);
    var v := EventRank(k.levels, b);
    var k1 := k.(priority := k.priority[h := b], eventValue := k.eventValue[h := v]);
    RaisedKeepsCore(k, h, b, v);
    assert Value(k1.priority, h) == b;
    assert [h][1..] == [];
    assert MovedItems(k.items, h, b) == Unblock(k.items, h, b);
    assert UnblockAll(k.items, [h], k1.priority) == Unblock(k.items, h, b);
    assert RaisedBy(k.topReady, [h], k1.priority) == Raised(k.topReady, b);
    assert ReadyAll(k1, [h]) == Disinherit(k, h);
    ReadyAllKeepsCore(k1, [h]);
  }

  lemma DisinheritKeepsCore(k: Kernel, h: Task)
    requires Core(k) && Value(k.basePriority, h) < k.levels && MayDisinherit(k, h)
    ensures Core(Disinherit(k, h))
  {
    var b := Value(k.basePriority, h);
    if Priority(k, h) == b {
      assert Disinherit(k, h) == k;
    } else if Generic(k.items, h).Ready? {
      hide Core;
      MovedKeepsCore(k, h, b, EventRank(k.levels, b));
    } else {
      assert Generic(k.items, h).Delayed? by { LivingPlace(k, h); }
      hide Core;
      SleeperDisinherits(k, h);
    }
  }

  lemma LivingPlace(k: Kernel, t: Task)
    requires Core(k) && Living(k, t)
    ensures Generic(k.items, t).Ready? || Generic(k.items, t).Delayed?
  {
    hide Levelled, Timed, At;
  }

  /** Dropping the priority of a living task keeps the invariant exactly if it changes nothing
      or the task waits for no event: the event item is left in its list by it. */
  lemma DisinheritExact(k: Kernel, h: Task)
    requires Core(k) && Living(k, h) && Value(k.basePriority, h) < k.levels
    ensures Core(Disinherit(k, h)) <==>
            Priority(k, h) == Value(k.basePriority, h) || EventPlace(k.items, h) == Nowhere
  {
    if MayDisinherit(k, h) {
      DisinheritKeepsCore(k, h);
    } else {
      hide Placed, Timed, Levelled, MovedItems;
      var r := Disinherit(k, h);
      assert EventPlace(r.items, h) != Nowhere && !Generic(r.items, h).Delayed?;
    }
  }
}
