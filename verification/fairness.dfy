/**
 * Tasks of one priority share the processor: over whole runs of the scheduler, a task that
 * stays ready is selected between any two selections of another task of its priority.
 */
module Fairness {
  import opened Seqs
  import opened Items
  import opened Tasks
  import opened Kernel
  import opened Invariant
  import opened Lifecycle
  import opened Delays
  import opened EventOrder
  import opened Runs

  /** Nobody comes to stand in front of a member of `a` who did not stand there already. */
  ghost predicate Behind(a: seq<Task>, b: seq<Task>) {
    forall x, y :: x in a && Precedes(b, y, x) ==> Precedes(a, y, x)
  }

  lemma AppendedBehind(a: seq<Task>, b: seq<Task>)
    requires a <= b && NoDup(b)
    ensures Behind(a, b)
  {
    forall x, y | x in a && Precedes(b, y, x)
      ensures Precedes(a, y, x)
    {
      var i, j :| 0 <= i < j < |b| && b[i] == y && b[j] == x;
      var l :| 0 <= l < |a| && a[l] == x;
      assert b[l] == x && l == j;
    }
  }

  lemma WithoutBehind(a: seq<Task>, z: Task)
    ensures Behind(a, a) && Behind(a, Without(a, z))
  {
    WithoutShrinks(a, z);
  }

  // ---- what a step does to one ring ----

  lemma {:induction false} CatchUpAppends(k: Kernel, n: nat, p: nat)
    requires Core(k) && k.suspended == 0
    ensures Ring(k, p) <= Ring(CatchUp(k, n), p)
    decreases n
  {
    hide Core, Ring, Tick;
    if n > 0 {
      TickOfCore(k);
      TickAppends(k, p);
      CatchUpAppends(Tick(k), n - 1, p);
    }
  }

  lemma TickAppends(k: Kernel, p: nat)
    requires Core(k) && k.suspended == 0
    ensures Ring(k, p) <= Ring(Tick(k), p)
  {
    hide Placed, Live, Levelled, Counted, Populated, CheckDelayed, AdvanceTick, DueTasks;
    AdvanceTickKeeps(k);
    AdvanceKeepsItems(k);
    CheckDelayedQueue(AdvanceTick(k));
  }

  lemma ResumedAppends(k: Kernel, p: nat)
    requires Core(k) && k.running && k.suspended > 0
    ensures Ring(k, p) <= Ring(Resumed(k), p)
  {
    hide CatchUp, Levelled, Live, Placed, Timed, At, UnblockAll;
    TasksCounted(k);
    if k.suspended == 1 {
      DrainedAppends(k, p);
      DrainedKeepsCore(k);
      CatchUpAppends(Drained(k), k.missedTicks, p);
    }
  }

  lemma DrainedAppends(k: Kernel, p: nat)
    requires Core(k) && k.suspended == 1
    ensures Ring(k, p) <= Ring(Drained(k), p)
  {
    hide Placed, At, Levelled, Timed, NoDup, UnblockAll;
    var k1, ts := k.(suspended := k.suspended - 1), At(k.items, Pending);
    PendingMembers(k);
    assert Timed(k1) by { TimedIsAboutTimes(k, k1); }
    ReadyAllLists(k1, ts);
  }

  lemma WakeAppends(k: Kernel, q: nat, p: nat)
    requires Core(k) && At(k.items, Event(q)) != []
    ensures Ring(k, p) <= Ring(RemoveFromEventList(k, q), p)
  {
    hide Core, Ring, RemoveFromEventList;
    if k.suspended == 0 { WakeFreeAppends(k, q, p); } else { WakePendingKeeps(k, q, p); }
  }

  lemma WakeFreeAppends(k: Kernel, q: nat, p: nat)
    requires Core(k) && At(k.items, Event(q)) != [] && k.suspended == 0
    ensures Ring(k, p) <= Ring(RemoveFromEventList(k, q), p)
  {
    hide Placed, At, Levelled, Timed, Live, Counted, Populated, UnblockAll, RemoveFromEventList, NoDup;
    WakeReadies(k, q);
    FirstWaiter(k, q);
    var ts := [At(k.items, Event(q))[0]];
    assert AllBlocked(k.items, ts) by { SingleBlocked(k.items, ts[0]); }
    ReadyAllLists(k, ts);
  }

  lemma SingleBlocked(s: Items, t: Task)
    requires Generic(s, t).Delayed?
    ensures AllBlocked(s, [t])
  {
  }

  lemma WakePendingKeeps(k: Kernel, q: nat, p: nat)
    requires Core(k) && At(k.items, Event(q)) != [] && k.suspended > 0
    ensures Ring(RemoveFromEventList(k, q), p) == Ring(k, p)
  {
    hide Placed, Levelled, Timed, Live, Counted, Populated;
    FirstWaiter(k, q);
  }

  /** A task that moves to another ring goes to its end. */
  lemma MovedBehind(s: Items, h: Task, q: nat, p: nat)
    requires Generic(s, h) != Ready(q) && NoDup(At(MovedItems(s, h, q), Ready(p)))
    ensures Behind(At(s, Ready(p)), At(MovedItems(s, h, q), Ready(p)))
  {
    hide Behind, NoDup;
    WithoutBehind(At(s, Ready(p)), h);
    if p == q { AppendedBehind(At(s, Ready(p)), At(MovedItems(s, h, q), Ready(p))); }
  }

  lemma InheritBehind(k: Kernel, h: Task, p: nat)
    requires Core(k) && NoDup(Ring(Inherit(k, h), p))
    ensures Behind(Ring(k, p), Ring(Inherit(k, h), p))
  {
    hide Behind, NoDup, MovedItems, At, Core;
    PrioritiesBounded(k, h);
    WithoutBehind(Ring(k, p), h);
    if Priority(k, h) < Priority(k, k.current) && Generic(k.items, h) == Ready(Priority(k, h)) {
      MovedBehind(k.items, h, Priority(k, k.current), p);
    }
  }

  lemma DisinheritBehind(k: Kernel, h: Task, p: nat)
    requires Core(k) && NoDup(Ring(Disinherit(k, h), p))
    ensures Behind(Ring(k, p), Ring(Disinherit(k, h), p))
  {
    hide Behind, NoDup, MovedItems, At, Core;
    PrioritiesBounded(k, h);
    WithoutBehind(Ring(k, p), h);
    if Priority(k, h) != Value(k.basePriority, h) {
      MovedBehind(k.items, h, Value(k.basePriority, h), p);
    }
  }

  lemma DelayBehind(k: Kernel, n: nat, p: nat)
    requires k.modulus > 0
    ensures Behind(Ring(k, p), Ring(Delay(k, n), p))
  {
    hide Behind, WakePosition;
    WithoutBehind(Ring(k, p), k.current);
  }

  lemma BlockBehind(k: Kernel, q: nat, n: nat, p: nat)
    requires k.modulus > 0
    ensures Behind(Ring(k, p), Ring(PlaceOnEventList(k, q, n), p))
  {
    hide Behind, Delay, EventPosition;
    DelayBehind(Queueing(k, q), n, p);
    assert Ring(Queueing(k, q), p) == Ring(k, p);
  }

  lemma LifecycleBehind(k: Kernel, s: Step, p: nat)
    requires Core(k) && Enabled(k, s) && (s.NewTask? || s.StartScheduler? || s.DeleteTask? || s.ReapTask?)
    requires NoDup(Ring(Apply(k, s), p))
    ensures Behind(Ring(k, p), Ring(Apply(k, s), p))
  {
    hide Core, Behind, NoDup, Ring, Create, Delete, Start, Reap;
    var a, b := Ring(k, p), Ring(Apply(k, s), p);
    match s
    case NewTask(t, n) => CreateAppends(k, t, n, p); AppendedBehind(a, b);
    case StartScheduler(t) => StartAppends(k, t, p); AppendedBehind(a, b);
    case DeleteTask(t) => DeletedBehind(k, t, p);
    case ReapTask => WithoutBehind(a, 0); if k.taskCount > 0 && k.deletedCount > 0 { ReapedBehind(k, p); }
  }

  lemma CreateAppends(k: Kernel, t: Task, n: nat, p: nat)
    ensures Ring(k, p) <= Ring(Create(k, t, n), p)
  {
    hide AppendGeneric, Registered;
    assert Registered(k, t, n).items == k.items by { RegisteredItems(k, t, n); }
  }

  lemma RegisteredItems(k: Kernel, t: Task, n: nat)
    ensures Registered(k, t, n).items == k.items
  {
  }

  lemma StartAppends(k: Kernel, t: Task, p: nat)
    ensures Ring(k, p) <= Ring(Start(k, t), p)
  {
    hide Create;
    CreateAppends(k, t, 0, p);
  }

  lemma ReapedBehind(k: Kernel, p: nat)
    requires At(k.items, Terminating) != [] && k.taskCount > 0 && k.deletedCount > 0
    ensures Behind(Ring(k, p), Ring(Reap(k), p))
  {
    hide Behind;
    WithoutBehind(Ring(k, p), At(k.items, Terminating)[0]);
  }

  lemma DeletedBehind(k: Kernel, t: Task, p: nat)
    requires Core(k)
    ensures Behind(Ring(k, p), Ring(Delete(k, t), p))
  {
    hide Live, Levelled, Timed, Counted, Populated, Behind, NoDup, TakeBoth;
    TakeBothPlaced(k.items, t);
    WithoutBehind(Ring(k, p), t);
  }

  /** A step at which the next task of a ring is chosen: task `x` of level `p`. */
  ghost predicate Selects(k: Kernel, s: Step, p: nat, x: Task) {
    && Chooses(k, s)
    && Apply(k, s).topReady == p && Apply(k, s).current == x
  }

  ghost predicate Chooses(k: Kernel, s: Step) {
    (s.Yield? && k.suspended == 0) || (s.Resume? && k.suspended > 0 && YieldOnResume(k))
  }

  /** In any other step nobody gets in front. */
  lemma StepBehind(k: Kernel, s: Step, p: nat)
    requires Core(k) && Enabled(k, s) && !Chooses(k, s) && NoDup(Ring(Apply(k, s), p))
    ensures Behind(Ring(k, p), Ring(Apply(k, s), p))
  {
    hide Core, Behind, NoDup, Ring, Resumed, Tick, Delay, PlaceOnEventList, RemoveFromEventList, Inherit, Disinherit,
      Create, Start, Delete, Reap;
    WithoutBehind(Ring(k, p), 0);
    match s
    case TickInterrupt =>
      if k.suspended == 0 { TickAppends(k, p); AppendedBehind(Ring(k, p), Ring(Tick(k), p)); }
      else { TickWhileSuspended(k); SameRing(k, Tick(k), p); }
    case Resume => ResumedAppends(k, p); AppendedBehind(Ring(k, p), Ring(Resumed(k), p));
    case DelayCurrent(n) => BoundedOfCore(k); DelayBehind(k, n, p);
    case BlockCurrent(q, n) => BoundedOfCore(k); BlockBehind(k, q, n, p);
    case WakeFirst(q) => WakeAppends(k, q, p); AppendedBehind(Ring(k, p), Ring(RemoveFromEventList(k, q), p));
    case InheritTo(h) => InheritBehind(k, h, p);
    case DisinheritFrom(h) => DisinheritBehind(k, h, p);
    case Suspend => SameRing(k, SuspendAll(k), p);
    case Yield => SameRing(k, SwitchContext(k), p);
    case MissYield => SameRing(k, k.(missedYield := true), p);
    case _ => LifecycleBehind(k, s, p);
  }

  lemma SameRing(k: Kernel, r: Kernel, p: nat)
    ensures r.items == k.items ==> Ring(r, p) == Ring(k, p)
  {
  }

  // ---- what a selection does ----

  /** The state in which the task is chosen. */
  ghost function Choosing(k: Kernel, s: Step): Kernel {
    if s.Resume? && k.suspended > 0 then Resumed(k).(missedYield := false) else k
  }

  lemma SelectionTurns(k: Kernel, s: Step)
    requires Core(k) && Enabled(k, s) && Chooses(k, s)
    ensures var c, r := Choosing(k, s), Apply(k, s);
            var l := r.topReady;
            && Ring(c, l) != [] && r.current == Ring(c, l)[0] && Ring(r, l) == Ring(c, l)[1..] + [r.current]
            && forall p :: p != l ==> Ring(r, p) == Ring(c, p)
    ensures forall p :: Ring(k, p) <= Ring(Choosing(k, s), p) && NoDup(Ring(Choosing(k, s), p))
  {
    hide Core, Resumed, SwitchContext;
    var c := Choosing(k, s);
    if s.Resume? {
      ResumedKeepsCore(k);
      CoreIgnoresMisses(Resumed(k), Resumed(k).missedTicks, false);
      forall p
        ensures Ring(k, p) <= Ring(c, p)
      {
        ResumedAppends(k, p);
      }
    }
    SwitchSelectsHighest(c);
    forall p
      ensures NoDup(Ring(c, p))
    {
      RingOnce(c, p);
    }
  }

  lemma RingOnce(k: Kernel, p: nat)
    requires Core(k)
    ensures NoDup(Ring(k, p))
  {
  }

  /** Turning a ring by one moves its head behind all others. */
  lemma TurnedPrecedes(c: seq<Task>, t: Task, u: Task)
    requires c != [] && u != c[0] && Precedes(c[1..] + [c[0]], t, u)
    ensures Precedes(c, t, u)
  {
    var b := c[1..] + [c[0]];
    var i, j :| 0 <= i < j < |b| && b[i] == t && b[j] == u;
    assert c[i + 1] == t && c[j + 1] == u;
  }

  lemma TurnedBehind(c: seq<Task>, t: Task, u: Task)
    requires c != [] && u in c && u != c[0] && !Precedes(c, t, u)
    ensures !Precedes(c[1..] + [c[0]], t, u) && t != c[0]
  {
    var l :| 0 <= l < |c| && c[l] == u;
    assert Precedes(c, c[0], u);
    if Precedes(c[1..] + [c[0]], t, u) { TurnedPrecedes(c, t, u); }
  }

  lemma SelectionKeepsAhead(k: Kernel, s: Step, p: nat, t: Task, u: Task)
    requires Core(k) && Enabled(k, s) && Chooses(k, s) && u in Ring(k, p) && !Precedes(Ring(k, p), t, u)
    ensures Selects(k, s, p, u) || (!Precedes(Ring(Apply(k, s), p), t, u) && !Selects(k, s, p, t))
  {
    hide Core, Ring, Apply, Enabled, Chooses;
    SelectionTurns(k, s);
    var c, r := Choosing(k, s), Apply(k, s);
    AppendedBehind(Ring(k, p), Ring(c, p));
    assert u in Ring(c, p);
    if r.topReady == p && r.current != u { TurnedBehind(Ring(c, p), t, u); }
  }

  // ---- whole runs ----

  ghost predicate StaysReady(k: Kernel, steps: seq<Step>, p: nat, u: Task)
    decreases |steps|
  {
    u in Ring(k, p) && (steps != [] ==> StaysReady(Apply(k, steps[0]), steps[1..], p, u))
  }

  ghost predicate SelectedIn(k: Kernel, steps: seq<Step>, p: nat, u: Task)
    decreases |steps|
  {
    steps != [] && (Selects(k, steps[0], p, u) || SelectedIn(Apply(k, steps[0]), steps[1..], p, u))
  }

  lemma StepKeepsAhead(k: Kernel, s: Step, p: nat, t: Task, u: Task)
    requires Consistent(k) && Enabled(k, s) && u in Ring(k, p) && !Precedes(Ring(k, p), t, u) && !Selects(k, s, p, u)
    ensures Consistent(Apply(k, s)) && !Precedes(Ring(Apply(k, s), p), t, u)
  {
    hide Core, Ring, Apply, Enabled, Chooses, Based, Settled, Selects;
    ApplyKeepsConsistent(k, s);
    if Chooses(k, s) {
      SelectionKeepsAhead(k, s, p, t, u);
    } else {
      RingOnce(Apply(k, s), p);
      StepBehind(k, s, p);
    }
  }

  lemma {:induction false} RunKeepsAhead(k: Kernel, steps: seq<Step>, p: nat, t: Task, u: Task)
    requires Consistent(k) && RunEnabled(k, steps) && StaysReady(k, steps, p, u)
    requires !Precedes(Ring(k, p), t, u) && !SelectedIn(k, steps, p, u)
    ensures var r := Run(k, steps); Consistent(r) && u in Ring(r, p) && !Precedes(Ring(r, p), t, u)
    decreases |steps|
  {
    hide Consistent, Ring, Apply, Enabled, Selects, Precedes;
    if steps != [] {
      StepKeepsAhead(k, steps[0], p, t, u);
      RunKeepsAhead(Apply(k, steps[0]), steps[1..], p, t, u);
    }
  }

  /**
   * Between two selections of task `t` of a level every other task that is continuously ready
   * on that level is selected, whatever else happens in between.
   */
  lemma SharesAreEqual(k: Kernel, first: Step, steps: seq<Step>, last: Step, p: nat, t: Task, u: Task)
    requires Consistent(k) && Enabled(k, first) && Selects(k, first, p, t) && u != t
    requires RunEnabled(Apply(k, first), steps) && StaysReady(Apply(k, first), steps, p, u)
    requires Enabled(Run(Apply(k, first), steps), last) && Selects(Run(Apply(k, first), steps), last, p, t)
    ensures SelectedIn(Apply(k, first), steps, p, u)
  {
    hide Core, Apply, Enabled, Chooses, RunEnabled, Run, StaysReady, SelectedIn, Based, Settled, Ring;
    var k1 := Apply(k, first);
    ApplyKeepsConsistent(k, first);
    SelectionTurns(k, first);
    RingOnce(k1, p);
    LastPrecedesNobody(Ring(k1, p), u);
    if !SelectedIn(k1, steps, p, u) {
      RunKeepsAhead(k1, steps, p, t, u);
      SelectionKeepsAhead(Run(k1, steps), last, p, t, u);
    }
  }

  lemma LastPrecedesNobody(s: seq<Task>, u: Task)
    requires s != [] && NoDup(s)
    ensures !Precedes(s, s[|s| - 1], u)
  {
  }
}
