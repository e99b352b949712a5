/**
 * The two delayed lists, read in absolute time: together they are one queue ordered by
 * wake-up time, and a tick takes off its head exactly the tasks due at that tick.
 */
module Delays {
  import opened Seqs
  import opened Items
  import opened Tasks
  import opened Kernel
  import opened Invariant

  /** When a delayed task is to wake, on the clock that never wraps. */
  function WakeTime(k: Kernel, t: Task): nat {
    (if Generic(k.items, t) == Delayed(k.second) then k.overflows else k.overflows + 1) * k.modulus + Wake(k, t)
  }

  /** The current list, then the list for after the wrap. */
  function Queue(k: Kernel): seq<Task> { CurrentDelayed(k) + OverflowDelayed(k) }

  lemma QueueMembers(k: Kernel)
    requires Placed(k.items)
    ensures forall i :: 0 <= i < |CurrentDelayed(k)| ==> Generic(k.items, CurrentDelayed(k)[i]) == Delayed(k.second)
    ensures forall i :: 0 <= i < |OverflowDelayed(k)| ==> Generic(k.items, OverflowDelayed(k)[i]) == Delayed(!k.second)
    ensures forall t :: t in Queue(k) <==> Generic(k.items, t).Delayed?
  {
    hide Placed;
    forall t
      ensures t in CurrentDelayed(k) <==> Generic(k.items, t) == Delayed(k.second)
      ensures t in OverflowDelayed(k) <==> Generic(k.items, t) == Delayed(!k.second)
    {
      DelayedMembers(k.items, t, k.second);
      DelayedMembers(k.items, t, !k.second);
    }
  }

  lemma WakeTimeIsFuture(k: Kernel, t: Task)
    requires Timed(k) && Generic(k.items, t).Delayed?
    ensures Clock(k) < WakeTime(k, t) <= Clock(k) + k.modulus - 1
    ensures Generic(k.items, t) == Delayed(k.second) <==> WakeTime(k, t) < (k.overflows + 1) * k.modulus
  {
    NextEpoch(k.overflows, k.modulus);
  }

  /** One queue in order of wake-up time, all of it in the future. */
  lemma QueueSorted(k: Kernel)
    requires Placed(k.items) && Timed(k)
    ensures forall i, j :: 0 <= i < j < |Queue(k)| ==> WakeTime(k, Queue(k)[i]) <= WakeTime(k, Queue(k)[j])
    ensures forall t :: t in Queue(k) ==> Clock(k) < WakeTime(k, t)
  {
    QueueMembers(k);
    forall t | t in Queue(k)
      ensures Clock(k) < WakeTime(k, t)
    {
      WakeTimeIsFuture(k, t);
    }
    forall i, j | 0 <= i < j < |Queue(k)|
      ensures WakeTime(k, Queue(k)[i]) <= WakeTime(k, Queue(k)[j])
    {
      OrderedPair(k, i, j);
    }
  }

  lemma OrderedPair(k: Kernel, i: nat, j: nat)
    requires Placed(k.items) && Timed(k) && i < j < |Queue(k)|
    ensures WakeTime(k, Queue(k)[i]) <= WakeTime(k, Queue(k)[j])
  {
    hide Placed, At;
    QueueMembers(k);
    var a, b := Queue(k)[i], Queue(k)[j];
    WakeTimeIsFuture(k, a);
    WakeTimeIsFuture(k, b);
    var n := |CurrentDelayed(k)|;
    if j < n {
      assert Wake(k, CurrentDelayed(k)[i]) <= Wake(k, CurrentDelayed(k)[j]);
    } else if n <= i {
      assert Wake(k, OverflowDelayed(k)[i - n]) <= Wake(k, OverflowDelayed(k)[j - n]);
    }
  }

  // ---- a tick in absolute time ----

  /** Moving on by one count changes nothing in absolute time but the clock. */
  lemma AdvanceKeepsQueue(k: Kernel)
    requires Placed(k.items) && Timed(k)
    ensures Queue(AdvanceTick(k)) == Queue(k)
    ensures forall t :: Generic(k.items, t).Delayed? ==> WakeTime(AdvanceTick(k), t) == WakeTime(k, t)
  {
    if k.tick + 1 == k.modulus {
      EmptyAtWrap(k);
      forall t | Generic(k.items, t).Delayed?
        ensures Generic(k.items, t) == Delayed(!k.second)
      {
        DelayedMembers(k.items, t, k.second);
      }
    }
  }

  /** The tasks a tick readies: those whose wake-up time it is. */
  ghost function DueAtTick(k: Kernel): seq<Task> { DueTasks(AdvanceTick(k)) }

  lemma DueInTime(k: Kernel, t: Task)
    requires Placed(k.items) && Timed(k) && Generic(k.items, t).Delayed?
    ensures var a := AdvanceTick(k);
            (Generic(a.items, t) == Delayed(a.second) && Wake(a, t) <= a.tick) <==> WakeTime(k, t) == Clock(k) + 1
  {
    hide HeadValue, Placed;
    AdvanceTickFrame(k);
    AdvanceKeepsQueue(k);
    WakeTimeIsFuture(k, t);
    var a := AdvanceTick(k);
    NextEpoch(a.overflows, a.modulus);
  }

  lemma DueExactly(k: Kernel)
    requires Placed(k.items) && Timed(k)
    ensures forall t :: t in DueAtTick(k) <==> Generic(k.items, t).Delayed? && WakeTime(k, t) == Clock(k) + 1
  {
    hide Placed, HeadValue, DueCount, WakeTime, Clock, At;
    AdvanceTickKeeps(k);
    AdvanceTickFrame(k);
    DueMembers(AdvanceTick(k));
    forall t
      ensures t in DueAtTick(k) <==> Generic(k.items, t).Delayed? && WakeTime(k, t) == Clock(k) + 1
    {
      if Generic(k.items, t).Delayed? { DueInTime(k, t); }
    }
  }

  /** Readying the due tasks, on the lists. */
  lemma CheckDelayedQueue(a: Kernel)
    requires TickInv(a, a.tick)
    ensures var r := CheckDelayed(a);
            && Queue(a) == DueTasks(a) + Queue(r)
            && (forall p :: Ring(r, p) == Ring(a, p) + OfPriority(DueTasks(a), a.priority, p))
  {
    hide Placed, At, TimedFrom, HeadValue, DueCount, UnblockAll, RaisedBy;
    CheckDelayedReadies(a);
    ReadyDuePlaced(a);
    var s := CurrentDelayed(a);
    assert s == s[..DueCount(a)] + s[DueCount(a)..];
  }

  /** Readying the due tasks, seen from one task. */
  lemma CheckDelayedPlaces(a: Kernel, t: Task)
    requires TickInv(a, a.tick)
    ensures var r := CheckDelayed(a);
            if t in DueTasks(a) then Generic(r.items, t) == Ready(Priority(a, t))
            else Generic(r.items, t) == Generic(a.items, t) && WakeTime(r, t) == WakeTime(a, t)
  {
    hide Placed, At, TimedFrom, HeadValue, DueCount, UnblockAll, RaisedBy;
    CheckDelayedReadies(a);
    UnblockAllPlaces(a.items, DueTasks(a), a.priority);
  }

  /**
   * The tick seen in absolute time.  The clock moves by one; the tasks due at the new
   * time are a prefix of the queue; they leave it for the ends of the ready rings of
   * their priorities, in queue order, and the others keep their order.
   */
  lemma TickRefinesQueue(k: Kernel)
    requires Core(k) && k.suspended == 0
    ensures var r, due := Tick(k), DueAtTick(k);
            && Clock(r) == Clock(k) + 1
            && Queue(k) == due + Queue(r)
            && (forall p :: Ring(r, p) == Ring(k, p) + OfPriority(due, k.priority, p))
            && (forall t :: t in due <==> Generic(k.items, t).Delayed? && WakeTime(k, t) == Clock(k) + 1)
  {
    hide Placed, At, Queue, Timed, TimedFrom, WakeTime, Clock, HeadValue, CheckDelayed;
    BoundedOfCore(k);
    TickFrame(k);
    AdvanceTickKeeps(k);
    AdvanceTickFrame(k);
    AdvanceKeepsQueue(k);
    DueExactly(k);
    CheckDelayedQueue(AdvanceTick(k));
  }

  /** The tick seen from one task: ready exactly at its wake-up time, untouched before. */
  lemma TickOfTask(k: Kernel, t: Task)
    requires Core(k) && k.suspended == 0
    ensures var r := Tick(k);
            if Generic(k.items, t).Delayed? && WakeTime(k, t) != Clock(k) + 1
            then Generic(r.items, t).Delayed? && WakeTime(r, t) == WakeTime(k, t)
            else Generic(r.items, t) == if Generic(k.items, t).Delayed? then Ready(Priority(k, t)) else Generic(k.items, t)
  {
    hide Placed, At, Queue, Timed, TimedFrom, Clock, HeadValue, CheckDelayed, DueTasks, WakeTime, Live, Levelled;
    BoundedOfCore(k);
    AdvanceTickKeeps(k);
    AdvanceTickFrame(k);
    AdvanceKeepsQueue(k);
    DueExactly(k);
    CheckDelayedPlaces(AdvanceTick(k), t);
  }

  // ---- a delay in absolute time ----

  function Times(k: Kernel): (r: seq<nat>)
    ensures |r| == |Queue(k)|
  {
    seq(|Queue(k)|, i requires 0 <= i < |Queue(k)| => WakeTime(k, Queue(k)[i]))
  }

  lemma InsertInConcat<T>(a: seq<T>, b: seq<T>, p: nat, x: T)
    requires p <= |a| + |b|
    ensures InsertAt(a + b, p, x) == if p <= |a| then InsertAt(a, p, x) + b else a + InsertAt(b, p - |a|, x)
    ensures p == |a| ==> InsertAt(a + b, p, x) == a + InsertAt(b, 0, x)
  {
  }

  /** Searching two lists laid out one epoch apart. */
  lemma PositionAcross(ts: seq<nat>, vs: seq<nat>, ws: seq<nat>, base: nat, m: nat, c: nat)
    requires |ts| == |vs| + |ws| && base <= c
    requires forall i :: 0 <= i < |vs| ==> ts[i] == base + vs[i] && vs[i] < m
    requires forall i :: 0 <= i < |ws| ==> ts[|vs| + i] == base + m + ws[i]
    ensures c < base + m ==> InsertPosition(ts, c) == InsertPosition(vs, c - base)
    ensures base + m <= c ==> InsertPosition(ts, c) == |vs| + InsertPosition(ws, c - base - m)
  {
    if c < base + m {
      var p := InsertPosition(vs, c - base);
      if p == |vs| < |ts| { assert ts[|vs| + 0] == base + m + ws[0]; }
      PositionUnique(ts, c, p);
    } else {
      var p := InsertPosition(ws, c - base - m);
      forall i | 0 <= i < |vs| + p
        ensures ts[i] <= c
      {
        if |vs| <= i { assert ts[|vs| + (i - |vs|)] == base + m + ws[i - |vs|]; }
      }
      if p < |ws| { assert ts[|vs| + p] == base + m + ws[p]; }
      PositionUnique(ts, c, |vs| + p);
    }
  }

  lemma TimesLaidOut(k: Kernel)
    requires Placed(k.items) && Timed(k)
    ensures var vs, ws, base := Values(k.wakeValue, CurrentDelayed(k)), Values(k.wakeValue, OverflowDelayed(k)), k.overflows * k.modulus;
            && (forall i :: 0 <= i < |vs| ==> Times(k)[i] == base + vs[i] && vs[i] < k.modulus)
            && (forall i :: 0 <= i < |ws| ==> Times(k)[|vs| + i] == base + k.modulus + ws[i])
  {
    hide Placed, At;
    QueueMembers(k);
    NextEpoch(k.overflows, k.modulus);
  }

  /** The place of a new wake-up time in the queue is its place in the list it belongs to. */
  lemma PositionInQueue(k: Kernel, ticks: nat)
    requires Placed(k.items) && Timed(k) && 0 < ticks < k.modulus
    ensures var v := (k.tick + ticks) % k.modulus;
            InsertPosition(Times(k), Clock(k) + ticks) ==
            if k.tick + ticks < k.modulus then InsertPosition(Values(k.wakeValue, CurrentDelayed(k)), v)
            else |CurrentDelayed(k)| + InsertPosition(Values(k.wakeValue, OverflowDelayed(k)), v)
  {
    hide Placed, At, TimedFrom, Times, Values;
    var vs, ws := Values(k.wakeValue, CurrentDelayed(k)), Values(k.wakeValue, OverflowDelayed(k));
    DelayArithmetic(k, ticks);
    TimesLaidOut(k);
    PositionAcross(Times(k), vs, ws, k.overflows * k.modulus, k.modulus, Clock(k) + ticks);
  }

  lemma DelayTimes(k: Kernel, ticks: nat)
    requires Placed(k.items) && Bounded(k) && 0 < ticks < k.modulus && Generic(k.items, k.current).Ready?
    ensures var r := Delay(k, ticks);
            && WakeTime(r, k.current) == Clock(k) + ticks
            && Clock(r) == Clock(k)
            && (forall t :: Generic(k.items, t).Delayed? ==> WakeTime(r, t) == WakeTime(k, t))
  {
    hide Placed, At;
    DelayArithmetic(k, ticks);
    DelayFrame(k, ticks);
    DelayPlaced(k, ticks);
    NextEpoch(k.overflows, k.modulus);
    assert Delay(k, ticks).wakeValue == k.wakeValue[k.current := (k.tick + ticks) % k.modulus];
  }

  /**
   * A delay of n ticks seen in absolute time: the current task goes into the queue at
   * its wake-up time, now plus n, behind those that wake no later.
   */
  lemma DelayRefinesQueue(k: Kernel, ticks: nat)
    requires Core(k) && MayBlock(k, ticks)
    ensures var r := Delay(k, ticks);
            && WakeTime(r, k.current) == Clock(k) + ticks
            && Queue(r) == InsertAt(Queue(k), InsertPosition(Times(k), Clock(k) + ticks), k.current)
            && Clock(r) == Clock(k)
            && (forall t :: Generic(k.items, t).Delayed? ==> WakeTime(r, t) == WakeTime(k, t))
  {
    hide Placed, At, Timed, Times, Live, Levelled, WakeTime, Clock, Delay, Values, InsertPosition;
    BoundedOfCore(k);
    DelayFrame(k, ticks);
    DelayLists(k, ticks);
    DelayTimes(k, ticks);
    PositionInQueue(k, ticks);
    InsertInConcat(CurrentDelayed(k), OverflowDelayed(k), InsertPosition(Times(k), Clock(k) + ticks), k.current);
  }

  // ---- the cached time ----

  /** The cached time is that of the first task of the current list, or the largest there is. */
  ghost predicate CachesHead(k: Kernel) {
    k.nextUnblock == if CurrentDelayed(k) == [] then MaxDelay(k) else Wake(k, CurrentDelayed(k)[0])
  }

  lemma CheckCaches(k: Kernel)
    requires k.nextUnblock <= k.tick
    ensures CachesHead(CheckDelayed(k))
  {
    hide ReadyAll, DueCount;
  }

  lemma WrapCaches(k: Kernel)
    requires k.modulus > 0
    ensures k.tick + 1 >= k.modulus ==> CachesHead(AdvanceTick(k))
    ensures k.tick + 1 < k.modulus ==> AdvanceTick(k).nextUnblock == k.nextUnblock
  {
  }

  lemma DelayCaches(k: Kernel, ticks: nat)
    requires k.modulus > 0
    ensures var wake := (k.tick + ticks) % k.modulus;
            Delay(k, ticks).nextUnblock == if k.tick <= wake && wake < k.nextUnblock then wake else k.nextUnblock
  {
    hide TakeGeneric, PutGeneric, WakePosition;
  }

  /** A check that is not suppressed leaves the cached time exact, and so does a wrap; a delay
      lowers it exactly if its wake time is earlier and comes before the wrap. */
  lemma CachedTimeIsExact(k: Kernel, ticks: nat)
    requires k.modulus > 0
    ensures k.nextUnblock <= k.tick ==> CachesHead(CheckDelayed(k))
    ensures k.tick + 1 >= k.modulus ==> CachesHead(AdvanceTick(k))
    ensures k.tick + 1 < k.modulus ==> AdvanceTick(k).nextUnblock == k.nextUnblock
    ensures var wake := (k.tick + ticks) % k.modulus;
            Delay(k, ticks).nextUnblock == if k.tick <= wake && wake < k.nextUnblock then wake else k.nextUnblock
  {
    hide CheckDelayed, AdvanceTick, Delay, CachesHead;
    if k.nextUnblock <= k.tick { CheckCaches(k); }
    WrapCaches(k);
    DelayCaches(k, ticks);
  }
}
