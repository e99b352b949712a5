/**
 * The scheduler in place: the variables of tasks.c and the functions that update them,
 * each proved to do to the whole state what the kernel operation of the same name does.
 */
module SchedulerClass {
  import opened Seqs
  import opened Items
  import opened Tasks
  import opened Kernel
  import K = Kernel
  import opened Invariant
  import opened Lifecycle
  import opened Timeouts
  import Runs
  import Arith

  // ---- loops, one round at a time ----

  lemma {:induction false} UnblockOneMore(s: Items, ts: seq<Task>, t: Task, priority: map<Task, nat>)
    ensures UnblockAll(s, ts + [t], priority) == Unblock(UnblockAll(s, ts, priority), t, Value(priority, t))
    decreases |ts|
  {
    hide Unblock;
    if ts == [] {
      assert (ts + [t])[1..] == [];
    } else {
      assert (ts + [t])[1..] == ts[1..] + [t];
      UnblockOneMore(Unblock(s, ts[0], Value(priority, ts[0])), ts[1..], t, priority);
    }
  }

  lemma {:induction false} RaisedOneMore(top: nat, ts: seq<Task>, t: Task, priority: map<Task, nat>)
    ensures RaisedBy(top, ts + [t], priority) == Raised(RaisedBy(top, ts, priority), Value(priority, t))
    decreases |ts|
  {
    if ts == [] {
      assert (ts + [t])[1..] == [];
    } else {
      assert (ts + [t])[1..] == ts[1..] + [t];
      RaisedOneMore(Raised(top, Value(priority, ts[0])), ts[1..], t, priority);
    }
  }

  lemma ReadyOneMore(k: Kernel, ts: seq<Task>, n: nat)
    requires n < |ts|
    ensures var r := ReadyAll(k, ts[..n]);
            ReadyAll(k, ts[..n + 1]) == AddToReady(r.(items := TakeBoth(r.items, ts[n])), ts[n])
  {
    hide TakeBoth, AppendGeneric, UnblockAll, RaisedBy;
    assert ts[..n + 1] == ts[..n] + [ts[n]];
    UnblockOneMore(k.items, ts[..n], ts[n], k.priority);
    RaisedOneMore(k.topReady, ts[..n], ts[n], k.priority);
  }

  lemma ReadyNone(k: Kernel)
    ensures ReadyAll(k, []) == k
  {
  }

  lemma {:induction false} CatchUpOneMore(k: Kernel, n: nat)
    ensures CatchUp(k, n + 1) == Tick(CatchUp(k, n))
    decreases n
  {
    hide Tick;
    if n > 0 { CatchUpOneMore(Tick(k), n - 1); }
  }

  lemma CheckIgnoresMisses(k: Kernel, n: nat)
    ensures CheckDelayed(k.(missedTicks := n)) == CheckDelayed(k).(missedTicks := n)
  {
    hide UnblockAll, RaisedBy;
    var m := k.(missedTicks := n);
    assert DueCount(m) == DueCount(k);
    if k.nextUnblock <= k.tick {
      var due := CurrentDelayed(k)[..DueCount(k)];
      assert ReadyAll(m, due) == ReadyAll(k, due).(missedTicks := n);
    }
  }

  lemma TickIgnoresMisses(k: Kernel, n: nat)
    requires k.suspended == 0
    ensures Tick(k.(missedTicks := n)) == Tick(k).(missedTicks := n)
  {
    hide CheckDelayed;
    assert AdvanceTick(k.(missedTicks := n)) == AdvanceTick(k).(missedTicks := n);
    CheckIgnoresMisses(AdvanceTick(k), n);
  }

  lemma PendingHead(k: Kernel, ts: seq<Task>, n: nat)
    requires Placed(k.items) && AllBlocked(k.items, ts) && n < |ts|
    ensures var r := ReadyAll(k, ts[..n]); Placed(r.items) && Generic(r.items, ts[n]).Delayed?
  {
    hide Placed, UnblockAll;
    assert AllBlocked(k.items, ts[..n]);
    UnblockAllEffect(k.items, ts[..n], k.priority);
    UnblockAllPlaces(k.items, ts[..n], k.priority);
    assert ts[n] !in ts[..n];
  }

  /** The caller of vTaskDelay while the scheduler is suspended. */
  ghost function PutToSleep(k: Kernel, n: nat): (r: Kernel)
    requires k.modulus > 0
    ensures r.suspended == k.suspended + 1
  {
    hide Delay;
    DelayFrame(K.SuspendAll(k), n);
    Delay(K.SuspendAll(k), n)
  }

  class Scheduler {
    const modulus: nat
    const levels: nat
    var tasks: set<Task>
    var items: Items
    var priority: map<Task, nat>
    var basePriority: map<Task, nat>
    var wakeValue: map<Task, nat>
    var eventValue: map<Task, nat>
    var current: Task
    var idle: Task
    var running: bool
    var second: bool
    var tick: nat
    var overflows: nat
    var nextUnblock: nat
    var suspended: nat
    var missedTicks: nat
    var missedYield: bool
    var topReady: nat
    var taskCount: nat
    var deletedCount: nat

    ghost function View(): Kernel
      reads this
    {
      Kernel(modulus, levels, tasks, items, priority, basePriority, wakeValue, eventValue, current, idle, running,
             second, tick, overflows, nextUnblock, suspended, missedTicks, missedYield, topReady, taskCount, deletedCount)
    }

    constructor (modulus: nat, levels: nat)
      requires modulus > 1
      ensures View() == Runs.Boot(modulus, levels)
    {
      this.modulus, this.levels := modulus, levels;
      tasks, items := {}, Items(map[], map[], map[]);
      priority, basePriority, wakeValue, eventValue := map[], map[], map[], map[];
      current, idle, running, second := 0, 0, false, false;
      tick, overflows, nextUnblock := 0, 0, modulus - 1;
      suspended, missedTicks, missedYield := 0, 0, false;
      topReady, taskCount, deletedCount := 0, 0, 0;
    }

    /** prvAddTaskToReadyQueue */
    method AddTaskToReadyQueue(t: Task)
      modifies this`items, this`topReady
      ensures View() == AddToReady(old(View()), t)
    {
      var p := Value(priority, t);
      if p > topReady {
        topReady := p;
      }
      items := AppendGeneric(items, t, Ready(p));
    }

    // ---- ticks ----

    /** prvCheckDelayedTasks */
    method CheckDelayedTasks()
      requires modulus > 0 && Placed(items)
      modifies this`items, this`topReady, this`nextUnblock
      ensures View() == CheckDelayed(old(View()))
    {
      hide Placed, UnblockAll, RaisedBy, At, TakeBoth;
      if tick >= nextUnblock {
        ghost var k := View();
        ghost var due, n: nat := CurrentDelayed(k), 0;
        assert due[..0] == [] && due[0..] == due;
        ReadyNone(k);
        while true
          invariant n <= |due| && View() == ReadyAll(k, due[..n])
          invariant Placed(items) && At(items, Delayed(second)) == due[n..]
          invariant forall i :: 0 <= i < n ==> Wake(k, due[i]) <= tick
          decreases |due| - n
        {
          var delayed := At(items, Delayed(second));
          if delayed == [] {
            nextUnblock := modulus - 1;
            break;
          }
          var t := delayed[0];
          var itemValue := Value(wakeValue, t);
          if tick < itemValue {
            nextUnblock := itemValue;
            break;
          }
          ReadyHead(t, k, due, n);
          n := n + 1;
        }
        LoopStops(k, n);
      }
    }

    /** Where the loop stops is where the first later wake value stands. */
    static lemma LoopStops(k: Kernel, n: nat)
      requires k.tick >= k.nextUnblock && n <= |CurrentDelayed(k)|
      requires forall i :: 0 <= i < n ==> Wake(k, CurrentDelayed(k)[i]) <= k.tick
      requires n < |CurrentDelayed(k)| ==> k.tick < Wake(k, CurrentDelayed(k)[n])
      ensures var r := ReadyAll(k, CurrentDelayed(k)[..n]); CheckDelayed(k) == r.(nextUnblock := HeadValue(r))
    {
      hide UnblockAll, RaisedBy, HeadValue, At;
      var vs := Values(k.wakeValue, CurrentDelayed(k));
      PositionUnique(vs, k.tick, n);
    }

    /** One round of the loop: the head of the delayed list leaves it, and its event list if it
        is in one, and becomes ready. */
    method ReadyHead(t: Task, ghost k: Kernel, ghost due: seq<Task>, ghost n: nat)
      requires n < |due| && t == due[n] && View() == ReadyAll(k, due[..n])
      requires Placed(items) && At(items, Delayed(second)) == due[n..]
      modifies this`items, this`topReady
      ensures View() == ReadyAll(k, due[..n + 1])
      ensures Placed(items) && At(items, Delayed(second)) == due[n + 1..]
    {
      hide Placed, UnblockAll, RaisedBy, At, TakeBoth;
      ReadyOneMore(k, due, n);
      UnblockHead(items, Delayed(second), Value(priority, t));
      RemoveBoth(t);
      AddTaskToReadyQueue(t);
    }

    /** The two vListRemove calls. */
    method RemoveBoth(t: Task)
      modifies this`items
      ensures items == TakeBoth(old(items), t)
    {
      items := TakeGeneric(items, t);
      if EventPlace(items, t) != Nowhere {
        items := TakeEvent(items, t);
      }
    }

    static lemma Wraps(tick: nat, modulus: nat)
      requires tick < modulus
      ensures (tick + 1) % modulus == if tick + 1 < modulus then tick + 1 else 0
    {
    }

    /** The two delayed lists change places. */
    method SwapDelayedLists()
      requires modulus > 0
      modifies this`second, this`overflows, this`nextUnblock
      ensures View() == old(View()).(second := !old(second), overflows := old(overflows) + 1,
                                     nextUnblock := HeadValue(old(View()).(second := !old(second))))
    {
      second := !second;
      overflows := overflows + 1;
      var delayed := At(items, Delayed(second));
      if delayed == [] {
        nextUnblock := modulus - 1;
      } else {
        nextUnblock := Value(wakeValue, delayed[0]);
      }
    }

    /** vTaskIncrementTick */
    method IncrementTick()
      requires Placed(items) && Timed(View())
      modifies this`items, this`topReady, this`nextUnblock, this`second, this`tick, this`overflows, this`missedTicks
      ensures View() == Tick(old(View()))
    {
      hide Placed, CheckDelayed, HeadValue, At;
      if suspended == 0 {
        Wraps(tick, modulus);
        tick := (tick + 1) % modulus;
        if tick == 0 {
          EmptyAtWrap(old(View()));
          assert At(items, Delayed(second)) == [];
          SwapDelayedLists();
          HeadIgnoresTick(old(View()));
        }
        assert View() == AdvanceTick(old(View()));
        CheckDelayedTasks();
      } else {
        missedTicks := missedTicks + 1;
      }
    }

    static lemma HeadIgnoresTick(k: Kernel)
      ensures HeadValue(k.(tick := 0, second := !k.second)) == HeadValue(k.(second := !k.second))
    {
    }

    // ---- choosing a task ----

    /** vTaskSwitchContext */
    method SwitchContext()
      requires Core(View()) && running
      modifies this`items, this`topReady, this`current, this`missedYield
      ensures View() == K.SwitchContext(old(View()))
    {
      hide Core, Rotated, At;
      if suspended != 0 {
        missedYield := true;
      } else {
        FindHighest();
        current := At(items, Ready(topReady))[0];
        items := Rotated(items, topReady);
      }
    }

    /** The search for the highest list that is not empty. */
    method FindHighest()
      requires Core(View()) && running
      modifies this`topReady
      ensures topReady == TopNonEmpty(old(View()), old(topReady)) && At(items, Ready(topReady)) != []
    {
      hide Core, At;
      IdleIsReady(View());
      ghost var least := Value(priority, idle);
      while At(items, Ready(topReady)) == []
        invariant At(items, Ready(least)) != [] && least <= topReady
        invariant TopNonEmpty(old(View()), topReady) == TopNonEmpty(old(View()), old(topReady))
        decreases topReady
      {
        assert topReady > 0;
        topReady := topReady - 1;
      }
    }

    // ---- suspending ----

    /** vTaskSuspendAll */
    method SuspendAll()
      modifies this`suspended
      ensures View() == K.SuspendAll(old(View()))
    {
      suspended := suspended + 1;
    }

    /** The first loop of xTaskResumeAll. */
    method DrainPending() returns (yieldRequired: bool)
      requires Placed(items) && AllBlocked(items, At(items, Pending))
      requires forall t :: t in At(items, Pending) ==> EventPlace(items, t) == Pending
      modifies this`items, this`topReady
      ensures View() == ReadyAll(old(View()), old(At(items, Pending)))
      ensures yieldRequired <==> SomeOutranks(priority, old(At(items, Pending)), current)
    {
      hide Placed, UnblockAll, RaisedBy, At, TakeBoth, Generic, EventPlace;
      ghost var k, ts, n: nat := View(), At(items, Pending), 0;
      assert ts[..0] == [] && ts[0..] == ts;
      ReadyNone(k);
      yieldRequired := false;
      while At(items, Pending) != []
        invariant n <= |ts| && View() == ReadyAll(k, ts[..n]) && At(items, Pending) == ts[n..] && Placed(items)
        invariant yieldRequired <==> SomeOutranks(priority, ts[..n], current)
        decreases |ts| - n
      {
        var t := At(items, Pending)[0];
        ReadyPending(t, k, ts, n);
        if Value(priority, t) >= Value(priority, current) {
          yieldRequired := true;
        }
        n := n + 1;
      }
      assert ts[..n] == ts;
    }

    /** One round of the loop. */
    method ReadyPending(t: Task, ghost k: Kernel, ghost ts: seq<Task>, ghost n: nat)
      requires Placed(k.items) && AllBlocked(k.items, ts) && ts == At(k.items, Pending)
      requires forall x :: x in ts ==> EventPlace(k.items, x) == Pending
      requires n < |ts| && t == ts[n] && View() == ReadyAll(k, ts[..n]) && At(items, Pending) == ts[n..]
      modifies this`items, this`topReady
      ensures View() == ReadyAll(k, ts[..n + 1])
      ensures Placed(items) && At(items, Pending) == ts[n + 1..]
    {
      hide Placed, UnblockAll, RaisedBy, At, TakeBoth, Generic, EventPlace;
      ReadyOneMore(k, ts, n);
      PendingMoves(k, ts, n);
      items := TakeEvent(items, t);
      items := TakeGeneric(items, t);
      AddTaskToReadyQueue(t);
    }

    /** The event item leaves before the generic one here; the result is the same. */
    static lemma PendingMoves(k: Kernel, ts: seq<Task>, n: nat)
      requires Placed(k.items) && AllBlocked(k.items, ts) && n < |ts| && ts == At(k.items, Pending)
      requires At(ReadyAll(k, ts[..n]).items, Pending) == ts[n..]
      requires forall t :: t in ts ==> EventPlace(k.items, t) == Pending
      ensures var r, t := ReadyAll(k, ts[..n]), ts[n];
              && TakeGeneric(TakeEvent(r.items, t), t) == TakeBoth(r.items, t)
              && Placed(ReadyAll(k, ts[..n + 1]).items)
              && At(ReadyAll(k, ts[..n + 1]).items, Pending) == ts[n + 1..]
    {
      hide Placed, UnblockAll, RaisedBy, At;
      var r, t := ReadyAll(k, ts[..n]), ts[n];
      PendingHead(k, ts, n);
      ReadyOneMore(k, ts, n);
      UnblockAllPlaces(k.items, ts[..n], k.priority);
      assert t !in ts[..n] && t in ts;
      UnblockEffect(r.items, t, Value(k.priority, t));
      WithoutHead(ts[n..]);
      TakenEitherWay(r.items, t);
    }

    static lemma TakenEitherWay(s: Items, t: Task)
      requires EventPlace(s, t) != Nowhere && Generic(s, t) != EventPlace(s, t)
      ensures TakeGeneric(TakeEvent(s, t), t) == TakeBoth(s, t)
    {
      var a, b := TakeGeneric(TakeEvent(s, t), t), TakeEvent(TakeGeneric(s, t), t);
      assert a.generic == b.generic && a.event == b.event;
      assert a.lists == b.lists;
    }

    /** The second loop: the ticks that were missed. */
    method CatchUpTicks()
      requires Core(View()) && suspended == 0
      modifies this`items, this`topReady, this`nextUnblock, this`second, this`tick, this`overflows, this`missedTicks
      ensures View() == CatchUp(old(View()), old(missedTicks)).(missedTicks := 0)
    {
      hide Core, Tick, CatchUp, Placed, Timed;
      ghost var k, n: nat := View(), 0;
      assert CatchUp(k, 0) == k by { NoTicks(k); }
      while missedTicks > 0
        invariant n + missedTicks == k.missedTicks
        invariant View() == CatchUp(k, n).(missedTicks := missedTicks)
      {
        OneMoreTick(k, n, missedTicks);
        IncrementTick();
        missedTicks := missedTicks - 1;
        n := n + 1;
      }
    }

    /** The tick after `n` of them, with any number missed. */
    static lemma OneMoreTick(k: Kernel, n: nat, missed: nat)
      requires Core(k) && k.suspended == 0
      ensures var r := CatchUp(k, n).(missedTicks := missed);
              Placed(r.items) && Timed(r) && Tick(r) == CatchUp(k, n + 1).(missedTicks := missed)
    {
      hide Core, Tick, CatchUp, Placed, Timed;
      CatchUpKeepsCore(k, n);
      CoreIgnoresMisses(CatchUp(k, n), missed, CatchUp(k, n).missedYield);
      TimesOfCore(CatchUp(k, n).(missedTicks := missed));
      TickIgnoresMisses(CatchUp(k, n), missed);
      CatchUpOneMore(k, n);
    }

    static lemma NoTicks(k: Kernel)
      ensures CatchUp(k, 0) == k
    {
    }

    static lemma TimesOfCore(k: Kernel)
      requires Core(k)
      ensures Placed(k.items) && Timed(k)
    {
    }

    static lemma ResumedIs(k: Kernel)
      requires k.suspended > 0
      ensures Resumed(k) ==
              if k.suspended > 1 || k.taskCount == 0 then k.(suspended := k.suspended - 1)
              else CatchUp(Drained(k), k.missedTicks).(missedTicks := 0)
    {
      hide CatchUp, ReadyAll;
    }

    /** xTaskResumeAll up to the yield. */
    method FinishSuspension() returns (yieldRequired: bool)
      requires Core(View()) && running && suspended == 1
      modifies this
      ensures View() == Resumed(old(View())) && yieldRequired == YieldOnResume(old(View()))
    {
      hide Core, CatchUp, Resumed, SomeOutranks, ReadyAll;
      ghost var k := View();
      TasksCounted(k);
      ResumedIs(k);
      PendingOfCore(k);
      DrainedKeepsCore(k);
      suspended := suspended - 1;
      yieldRequired := DrainPending();
      assert View() == Drained(k) by { DrainedIs(k); }
      if missedTicks > 0 {
        CatchUpTicks();
        yieldRequired := true;
      } else {
        NoTicks(Drained(k));
      }
      yieldRequired := yieldRequired || missedYield;
    }

    /** xTaskResumeAll */
    method ResumeAll() returns (alreadyYielded: bool)
      requires Core(View()) && running && suspended > 0
      modifies this
      ensures View() == K.ResumeAll(old(View())) && alreadyYielded == YieldOnResume(old(View()))
    {
      hide Core, CatchUp, Resumed, SomeOutranks, ReadyAll, K.SwitchContext;
      ghost var k := View();
      alreadyYielded := false;
      ResumedIs(k);
      ResumedKeepsCore(k);
      if suspended > 1 {
        suspended := suspended - 1;
      } else {
        alreadyYielded := FinishSuspension();
        if alreadyYielded {
          CoreIgnoresMisses(Resumed(k), Resumed(k).missedTicks, false);
          missedYield := false;
          SwitchContext();
        }
      }
    }

    static lemma DrainedIs(k: Kernel)
      requires k.suspended == 1
      ensures Drained(k) == ReadyAll(k.(suspended := 0), At(k.items, Pending))
    {
    }

    static lemma PendingOfCore(k: Kernel)
      requires Core(k)
      ensures Placed(k.items) && AllBlocked(k.items, At(k.items, Pending))
      ensures forall t :: t in At(k.items, Pending) ==> EventPlace(k.items, t) == Pending
    {
      hide Timed, Levelled;
      PendingMembers(k);
    }

    // ---- blocking and waking ----

    /** vListInsert of the generic item, by wake value. */
    method InsertByWakeValue(t: Task, l: Place, value: nat)
      modifies this`items
      ensures items == PutGeneric(old(items), t, l, WakePosition(old(View()), l, value))
    {
      hide PutGeneric, At;
      items := PutGeneric(items, t, l, InsertPosition(Values(wakeValue, At(items, l)), value));
    }

    /** prvAddCurrentTaskToDelayedList */
    method AddCurrentTaskToDelayedList(timeToWake: nat)
      modifies this`items, this`wakeValue, this`nextUnblock
      ensures View() == AddCurrentToDelayed(old(View()), timeToWake)
    {
      hide WakePosition, PutGeneric;
      if timeToWake < tick {
        InsertByWakeValue(current, Delayed(!second), timeToWake);
      } else {
        InsertByWakeValue(current, Delayed(second), timeToWake);
        if timeToWake < nextUnblock {
          nextUnblock := timeToWake;
        }
      }
      wakeValue := wakeValue[current := timeToWake];
    }

    /** vTaskPlaceOnEventList */
    method PlaceOnEventList(q: nat, ticksToWait: nat)
      requires modulus > 0
      modifies this`items, this`wakeValue, this`nextUnblock
      ensures View() == K.PlaceOnEventList(old(View()), q, ticksToWait)
    {
      hide AddCurrentToDelayed, PutEvent, TakeGeneric;
      var position := InsertPosition(Values(eventValue, At(items, Event(q))), Value(eventValue, current));
      items := PutEvent(items, current, Event(q), position);
      items := TakeGeneric(items, current);
      AddCurrentTaskToDelayedList((tick + ticksToWait) % modulus);
    }

    /** vTaskDelay: the caller sleeps, and the processor goes to another task. */
    method TaskDelay(ticksToDelay: nat)
      requires Core(View()) && running && current != idle && Generic(items, current).Ready? && ticksToDelay < modulus
      modifies this
      ensures ticksToDelay == 0 ==> View() == K.SwitchContext(old(View()))
      ensures ticksToDelay > 0 ==>
                var asleep := PutToSleep(old(View()), ticksToDelay);
                View() == if YieldOnResume(asleep) then K.ResumeAll(asleep) else K.SwitchContext(K.ResumeAll(asleep))
    {
      hide Core, Delay, K.ResumeAll, K.SwitchContext, Resumed, SomeOutranks, AddCurrentToDelayed, TakeGeneric;
      ghost var k := View();
      var alreadyYielded := false;
      DelayFrame(K.SuspendAll(k), ticksToDelay);
      if ticksToDelay > 0 {
        SuspendAll();
        Runs.SuspendKeepsCore(k);
        DelayKeepsCore(K.SuspendAll(k), ticksToDelay);
        var timeToWake := (tick + ticksToDelay) % modulus;
        items := TakeGeneric(items, current);
        AddCurrentTaskToDelayedList(timeToWake);
        assert View() == PutToSleep(k, ticksToDelay) by { DelayIs(K.SuspendAll(k), ticksToDelay); }
        ResumedKeepsCore(View());
        alreadyYielded := ResumeAll();
        ResumeWithoutYield(PutToSleep(k, ticksToDelay));
      }
      if !alreadyYielded {
        SwitchContext();
      }
    }

    static lemma DelayIs(k: Kernel, n: nat)
      requires k.modulus > 0
      ensures Delay(k, n) == AddCurrentToDelayed(k.(items := TakeGeneric(k.items, k.current)), (k.tick + n) % k.modulus)
    {
    }

    static lemma ResumeWithoutYield(k: Kernel)
      requires k.suspended > 0
      ensures !YieldOnResume(k) ==> K.ResumeAll(k) == Resumed(k)
    {
      hide Resumed, YieldOnResume;
    }

    /** xTaskRemoveFromEventList */
    method RemoveFromEventList(q: nat) returns (outranks: bool)
      requires At(items, Event(q)) != []
      modifies this`items, this`topReady
      ensures View() == K.RemoveFromEventList(old(View()), q) && outranks == WokenOutranks(old(View()), q)
    {
      hide At, TakeGeneric, TakeEvent, AppendGeneric, PutEvent;
      var t := At(items, Event(q))[0];
      items := TakeEvent(items, t);
      if suspended == 0 {
        items := TakeGeneric(items, t);
        AddTaskToReadyQueue(t);
      } else {
        items := PutEvent(items, t, Pending, |At(items, Pending)|);
      }
      outranks := Value(priority, t) >= Value(priority, current);
    }

    // ---- tasks come and go ----

    /** prvInitialiseTCBVariables, as far as priorities go. */
    method InitialiseVariables(t: Task, uxPriority: nat)
      modifies this`priority, this`basePriority, this`eventValue
      ensures var p := Capped(levels, uxPriority);
              View() == old(View()).(priority := old(priority)[t := p], basePriority := old(basePriority)[t := p],
                                     eventValue := old(eventValue)[t := EventRank(levels, p)])
    {
      var p: nat := if uxPriority < levels then uxPriority else if levels > 0 then levels - 1 else 0;
      priority, basePriority, eventValue := priority[t := p], basePriority[t := p], eventValue[t := levels - p];
    }

    /** One more task; before the scheduler runs, the best one so far is the current one. */
    method CountTask(t: Task, uxPriority: nat)
      modifies this`tasks, this`taskCount, this`current
      ensures View() == old(View()).(tasks := old(tasks) + {t}, taskCount := old(taskCount) + 1,
                                     current := Registered(old(View()), t, uxPriority).current)
    {
      taskCount := taskCount + 1;
      if tasks == {} {
        current := t;
      } else if !running {
        if Value(priority, current) <= uxPriority {
          current := t;
        }
      }
      tasks := tasks + {t};
    }

    /** xTaskGenericCreate */
    method GenericCreate(t: Task, uxPriority: nat)
      requires Core(View()) && t !in tasks
      modifies this
      ensures var made := Create(old(View()), t, uxPriority);
              View() == if running && Priority(made, made.current) < uxPriority then K.SwitchContext(made) else made
    {
      hide Core, AppendGeneric, Capped, EventRank, Value, K.SwitchContext;
      CreateKeepsCore(View(), t, uxPriority);
      CountTask(t, uxPriority);
      InitialiseVariables(t, uxPriority);
      AddTaskToReadyQueue(t);
      if running {
        if Value(priority, current) < uxPriority {
          SwitchContext();
        }
      }
    }

    /** vTaskStartScheduler */
    method StartScheduler(idleTask: Task)
      requires Core(View()) && !running && idleTask !in tasks
      modifies this
      ensures View() == Start(old(View()), idleTask)
    {
      hide Core, Create, K.SwitchContext;
      assert Create(View(), idleTask, 0).running == running by { CreateFrame(View(), idleTask); }
      GenericCreate(idleTask, 0);
      idle, running, tick := idleTask, true, 0;
    }

    static lemma CreateFrame(k: Kernel, t: Task)
      ensures Create(k, t, 0).running == k.running
    {
      hide AppendGeneric, Capped, EventRank;
    }

    /** vTaskDelete */
    method Delete(t: Task)
      requires Core(View()) && t in tasks && Generic(items, t) != Terminating && (running ==> t != idle)
      modifies this
      ensures var gone := K.Delete(old(View()), t);
              View() == if running && t == old(current) then K.SwitchContext(gone) else gone
    {
      hide Core, AppendGeneric, K.SwitchContext, TakeBoth;
      DeleteKeepsCore(View(), t);
      RemoveBoth(t);
      items := AppendGeneric(items, t, Terminating);
      deletedCount := deletedCount + 1;
      if running && t == current {
        SwitchContext();
      }
    }

    /** The critical section of prvCheckTasksWaitingTermination, which the idle task runs. */
    method FreeTerminated()
      requires Core(View()) && running && current == idle && At(items, Terminating) != []
      modifies this`items, this`tasks, this`taskCount, this`deletedCount
      ensures old(taskCount) > 0 && old(deletedCount) > 0 && View() == Reap(old(View())) && Core(View())
    {
      hide Core, TakeGeneric, At;
      IdleLives(View());
      ReapKeepsCore(View());
      var t := At(items, Terminating)[0];
      items := TakeGeneric(items, t);
      tasks := tasks - {t};
      taskCount := taskCount - 1;
      deletedCount := deletedCount - 1;
    }

    static lemma IdleLives(k: Kernel)
      requires Core(k) && k.running && At(k.items, Terminating) != []
      ensures At(k.items, Terminating)[0] != k.idle
    {
      hide Timed, Levelled, Live;
      var t := At(k.items, Terminating)[0];
      assert t in At(k.items, Terminating) <==> HasPlace(k.items, t, Terminating);
    }

    // ---- priority inheritance ----

    /** vTaskPriorityInherit */
    method PriorityInherit(holder: Task)
      modifies this`priority, this`eventValue, this`items, this`topReady
      ensures View() == Inherit(old(View()), holder)
    {
      hide TakeGeneric, AppendGeneric, Generic;
      var p := Value(priority, current);
      if Value(priority, holder) < p {
        var rank: nat := if p <= levels then levels - p else 0;
        eventValue := eventValue[holder := rank];
        if Generic(items, holder) == Ready(Value(priority, holder)) {
          items := TakeGeneric(items, holder);
          priority := priority[holder := p];
          AddTaskToReadyQueue(holder);
        } else {
          priority := priority[holder := p];
        }
      }
    }

    /** vTaskPriorityDisinherit */
    method PriorityDisinherit(holder: Task)
      modifies this`priority, this`eventValue, this`items, this`topReady
      ensures View() == Disinherit(old(View()), holder)
    {
      hide TakeGeneric, AppendGeneric, Generic;
      if Value(priority, holder) != Value(basePriority, holder) {
        var b := Value(basePriority, holder);
        items := TakeGeneric(items, holder);
        var rank: nat := if b <= levels then levels - b else 0;
        priority, eventValue := priority[holder := b], eventValue[holder := rank];
        AddTaskToReadyQueue(holder);
      }
    }

    // ---- time-outs ----

    /** vTaskSetTimeOutState */
    method SetTimeOutState() returns (timeOut: TimeOut)
      requires Bounded(View())
      ensures timeOut == SetTimeOut(modulus, Clock(View()))
    {
      ClockSplits(View());
      timeOut := TimeOut(overflows, tick);
    }

    static lemma ClockSplits(k: Kernel)
      requires Bounded(k)
      ensures Clock(k) / k.modulus == k.overflows && Clock(k) % k.modulus == k.tick
    {
      Arith.SplitUnique(Clock(k), k.modulus, k.overflows, k.tick);
    }

    /** xTaskCheckForTimeOut */
    method CheckForTimeOut(timeOut: TimeOut, ticksToWait: nat) returns (expired: bool, newTimeOut: TimeOut, newTicks: nat)
      requires Bounded(View()) && timeOut.timeOnEntering < modulus
      ensures var answer := Timeouts.CheckForTimeOut(modulus, Clock(View()), timeOut, ticksToWait);
              && expired == answer.Expired?
              && (if expired then newTimeOut == timeOut && newTicks == ticksToWait
                  else newTimeOut == answer.timeOut && newTicks == answer.ticks)
    {
      ClockSplits(View());
      newTimeOut, newTicks := timeOut, ticksToWait;
      var since := (tick + modulus - timeOut.timeOnEntering) % modulus;
      if overflows != timeOut.overflowCount && tick >= timeOut.timeOnEntering {
        expired := true;
      } else if since < ticksToWait {
        newTicks := ticksToWait - since;
        newTimeOut := SetTimeOutState();
        expired := false;
      } else {
        expired := true;
      }
    }
  }
}
