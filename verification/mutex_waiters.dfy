/** Who waits for a mutex, and who is woken when it is given back (queue.c on tasks.c). */
module MutexWaiters {
  import opened Seqs
  import opened Items
  import opened Tasks
  import opened Kernel
  import opened Invariant
  import opened Lifecycle
  import opened Delays
  import opened Runs
  import opened EventOrder
  import opened Mutexes

  /** Where a task is that has just been woken: in the list of its priority, or, with the
      scheduler suspended, last in the pending list. */
  ghost predicate IsWoken(k: Kernel, t: Task) {
    if k.suspended == 0
    then EventPlace(k.items, t) == Nowhere && Generic(k.items, t) == Ready(Priority(k, t)) && t in Ring(k, Priority(k, t))
    else EventPlace(k.items, t) == Pending && t in At(k.items, Pending)
  }

  lemma WokenIsThere(k: Kernel, q: nat)
    requires Core(k) && Waiters(k.items, q) != []
    ensures IsWoken(RemoveFromEventList(k, q), Waiters(k.items, q)[0])
  {
    hide Placed, Levelled, Timed, Live, Counted, Populated;
    FirstWaiter(k, q);
    var t, r := Waiters(k.items, q)[0], RemoveFromEventList(k, q);
    if k.suspended == 0 {
      assert At(r.items, Ready(Priority(k, t)))[|At(r.items, Ready(Priority(k, t)))| - 1] == t;
    } else {
      InsertMembers(At(TakeEvent(k.items, t), Pending), |At(TakeEvent(k.items, t), Pending)|, t);
    }
  }

  lemma OthersStayInLine(k: Kernel, q: nat)
    requires Core(k) && Waiters(k.items, q) != []
    ensures var line, r := Waiters(k.items, q), RemoveFromEventList(k, q);
            && Waiters(r.items, q) == line[1..] && forall p: nat :: p != q ==> Waiters(r.items, p) == Waiters(k.items, p)
  {
    hide Placed, Levelled, Timed, Live, Counted, Populated;
    FirstWaiter(k, q);
    var line := Waiters(k.items, q);
    assert Without(line, line[0]) == line[1..];
  }

  /** The first waiter of a queue is woken; the others stay in line. */
  lemma WakesTheFirst(k: Kernel, q: nat)
    requires Core(k)
    ensures var line, r := Waiters(k.items, q), Woken(k, q);
            && r.priority == k.priority && r.suspended == k.suspended
            && (line == [] ==> r == k)
            && (line != [] ==> IsWoken(r, line[0]) && Waiters(r.items, q) == line[1..])
            && forall p: nat :: p != q ==> Waiters(r.items, p) == Waiters(k.items, p)
  {
    hide Core, IsWoken, WokenItems;
    if Waiters(k.items, q) != [] {
      WokenIsThere(k, q);
      OthersStayInLine(k, q);
    }
  }

  lemma DropLeavesWaiters(k: Kernel, h: Task, t: Task)
    requires Core(k) && MayDisinherit(k, h) && (t == h ==> EventPlace(k.items, h) != Nowhere)
    ensures var r := Disinherit(k, h);
            && r.suspended == k.suspended && Priority(r, t) == Priority(k, t)
            && forall p: nat :: Waiters(r.items, p) == Waiters(k.items, p)
  {
    hide Placed, Levelled, Timed, Live, Counted, Populated;
    LivingPlace(k, h);
    if Priority(k, h) == Value(k.basePriority, h) { assert Disinherit(k, h) == k; }
  }

  lemma WaitsThere(k: Kernel, q: nat)
    requires Core(k) && Waiters(k.items, q) != []
    ensures EventPlace(k.items, Waiters(k.items, q)[0]) == Event(q)
  {
    FirstWaiter(k, q);
  }

  /**
   * Giving back a mutex that is taken, by whomever: it is there again and nobody holds it, and
   * if tasks wait for it, the first of them is woken and the others stay in line.
   */
  lemma GiveWakesTheFirst(w: World, q: nat)
    requires Valid(w) && MayHappen(w, Give(q)) && w.mutexes[q].messages == 0
    ensures var line, r := Waiters(w.k.items, q), Happen(w, Give(q));
            && r.mutexes == w.mutexes[q := Mutex(1, Nobody)] && r.k.suspended == w.k.suspended
            && (line == [] ==> Waiters(r.k.items, q) == [])
            && (line != [] ==> IsWoken(r.k, line[0]) && Waiters(r.k.items, q) == line[1..] && Priority(r.k, line[0]) == Priority(w.k, line[0]))
            && forall p: nat :: p != q ==> Waiters(r.k.items, p) == Waiters(w.k.items, p)
  {
    hide Consistent, Living, MayDisinherit, Woken, Disinherit, IsWoken, Executing;
    assert Sound(w, q);
    var h, line := w.mutexes[q].holder.task, Waiters(w.k.items, q);
    DropKeepsValid(w, q, h);
    var k1 := Disinherit(w.k, h);
    assert Core(w.k) && Core(k1) by { CoreOfConsistent(w.k); CoreOfConsistent(k1); }
    if line != [] { WaitsThere(w.k, q); }
    var t := if line != [] then line[0] else h + 1;
    DropLeavesWaiters(w.k, h, t);
    WakesTheFirst(k1, q);
  }

  /** A mutex that is there is given by nobody: the queue is full. */
  lemma GiveRefused(w: World, q: nat)
    requires MayHappen(w, Give(q)) && w.mutexes[q].messages > 0
    ensures Happen(w, Give(q)) == w
  {
  }

  lemma BlockQueues(k: Kernel, q: nat, n: nat)
    requires Core(k) && MayBlock(k, n)
    ensures k.modulus > 0
    ensures var t, r := k.current, PlaceOnEventList(k, q, n);
            && (exists p :: 0 <= p <= |Waiters(k.items, q)| && Waiters(r.items, q) == InsertAt(Waiters(k.items, q), p, t))
            && t in Waiters(r.items, q) && Generic(r.items, t).Delayed? && EventPlace(r.items, t) == Event(q)
            && forall p: nat :: p != q ==> Waiters(r.items, p) == Waiters(k.items, p)
  {
    hide Placed, Levelled, Timed, Live, Counted, Populated, WakePosition;
    var p := EventPosition(k, q, Value(k.eventValue, k.current));
    InsertMembers(Waiters(k.items, q), p, k.current);
  }

  /** And it sleeps until the time that it gave. */
  lemma BlockSleeps(k: Kernel, q: nat, n: nat)
    requires Core(k) && MayBlock(k, n)
    ensures k.modulus > 0 && WakeTime(PlaceOnEventList(k, q, n), k.current) == Clock(k) + n
  {
    hide Placed, Timed, At, Levelled, Delay, EventPosition, WakeTime, Clock;
    BoundedOfCore(k);
    PutEventPlaced(k.items, k.current, Event(q), EventPosition(k, q, Value(k.eventValue, k.current)));
    DelayTimes(Queueing(k, q), n);
    SameClock(k, Queueing(k, q));
  }

  lemma SameClock(k: Kernel, r: Kernel)
    requires r == k.(items := r.items)
    ensures Clock(r) == Clock(k) && (Bounded(k) ==> Bounded(r))
  {
  }

  lemma InheritLeavesWaiters(k: Kernel, h: Task)
    ensures forall p: nat :: Waiters(Inherit(k, h).items, p) == Waiters(k.items, p)
    ensures Inherit(k, h).current == k.current
  {
  }

  /**
   * The second look of a task that wants the mutex: if it is still gone the task is in line
   * for it and blocked, and those in line before keep their order; otherwise nothing happens.
   */
  lemma WaitQueuesExactly(w: World, q: nat, n: nat)
    requires Valid(w) && MayHappen(w, WaitFor(q, n))
    ensures var t, line, r := w.k.current, Waiters(w.k.items, q), Happen(w, WaitFor(q, n));
            && r.mutexes == w.mutexes && (w.mutexes[q].messages > 0 ==> r == w)
            && (w.mutexes[q].messages == 0 ==>
                  && (exists p :: 0 <= p <= |line| && Waiters(r.k.items, q) == InsertAt(line, p, t))
                  && t in Waiters(r.k.items, q) && Generic(r.k.items, t).Delayed? && EventPlace(r.k.items, t) == Event(q)
                  && forall p: nat :: p != q ==> Waiters(r.k.items, p) == Waiters(w.k.items, p))
  {
    hide Consistent, Living, PlaceOnEventList, Inherit, MayBlock;
    assert Sound(w, q);
    MayBlockIsBounded(w.k, n);
    if w.mutexes[q].messages == 0 {
      var h := w.mutexes[q].holder.task;
      OtherKeepsValid(w, InheritTo(h)) by { InheritEnabled(w, q, n); }
      ApplyIs(w.k, InheritTo(h));
      StillMayBlock(w.k, h, n);
      CoreOfConsistent(Inherit(w.k, h));
      InheritLeavesWaiters(w.k, h);
      BlockQueues(Inherit(w.k, h), q, n);
    }
  }

  lemma MayBlockIsBounded(k: Kernel, n: nat)
    requires MayBlock(k, n)
    ensures k.modulus > 0
  {
  }

  lemma InheritEnabled(w: World, q: nat, n: nat)
    requires Valid(w) && MayHappen(w, WaitFor(q, n)) && w.mutexes[q].holder.HeldBy?
    ensures Enabled(w.k, InheritTo(w.mutexes[q].holder.task))
  {
    hide Consistent;
    assert Sound(w, q);
  }

  /** A task takes a mutex exactly if it is there; taking changes nothing else. */
  lemma TakeIsExact(w: World, q: nat)
    requires Valid(w) && MayHappen(w, Take(q))
    ensures var r := Happen(w, Take(q));
            && r.k == w.k && (forall p, t :: p != q ==> (Holds(r, p, t) <==> Holds(w, p, t)))
            && (if w.mutexes[q].messages > 0 then Holds(r, q, w.k.current) && r.mutexes[q].messages == w.mutexes[q].messages - 1 else r == w)
  {
    hide Consistent;
  }
}
