/** When the end of a suspension makes the running task yield, and when it does not (tasks.c). */
module Resumes {
  import opened Seqs
  import opened Items
  import opened Tasks
  import opened Kernel
  import opened Invariant
  import opened Lifecycle
  import opened Runs
  import opened Wakeups

  /** A switch was asked for, a tick was missed, or a task that does not rank below the running
      one has become pending. */
  ghost predicate YieldDue(k: Kernel) {
    k.missedYield || k.missedTicks > 0 || exists t :: t in At(k.items, Pending) && Priority(k, t) >= Priority(k, k.current)
  }

  lemma YieldDueIs(k: Kernel)
    requires Core(k) && k.running && k.suspended == 1
    ensures YieldOnResume(k) <==> YieldDue(k)
  {
    hide Placed, Live, Levelled, Timed, Populated;
    TasksCounted(k);
    var ts := At(k.items, Pending);
    if SomeOutranks(k.priority, ts, k.current) {
      var i :| 0 <= i < |ts| && Value(k.priority, ts[i]) >= Value(k.priority, k.current);
      assert ts[i] in ts && Priority(k, ts[i]) >= Priority(k, k.current);
    }
  }

  /** The ring of level `l`, the highest that is not empty, turns by one, and its first task runs. */
  ghost predicate HighestTurned(c: Kernel, r: Kernel, l: nat) {
    && Ring(c, l) != [] && r.current == Ring(c, l)[0] && Ring(r, l) == Ring(c, l)[1..] + [r.current]
    && (forall p: nat :: p != l ==> Ring(r, p) == Ring(c, p))
    && (forall p: nat :: Ring(c, p) != [] ==> p <= l)
  }

  /**
   * The outermost resume turns the highest ring, and its first task runs, exactly if one of
   * the three holds; otherwise the running task goes on and no ring turns.
   */
  lemma ResumeIsExact(k: Kernel)
    requires Core(k) && k.running && k.suspended == 1
    ensures var r, c := ResumeAll(k), Resumed(k);
            if YieldDue(k) then HighestTurned(c, r, r.topReady) && !r.missedYield
            else r.current == k.current && forall p: nat :: Ring(r, p) == Ring(c, p)
  {
    hide Core, Resumed, SwitchContext, YieldDue, YieldOnResume;
    YieldDueIs(k);
    ResumedKeepsCore(k);
    var c := Resumed(k);
    if YieldOnResume(k) {
      CoreIgnoresMisses(c, c.missedTicks, false);
      SwitchSelectsHighest(c.(missedYield := false));
      SwitchKeepsYield(c.(missedYield := false));
      forall p: nat | Ring(c, p) != []
        ensures p <= ResumeAll(k).topReady
      {
        NoneHigher(c.(missedYield := false), p);
      }
    }
  }

  lemma SwitchKeepsYield(k: Kernel)
    requires k.suspended == 0
    ensures SwitchContext(k).missedYield == k.missedYield
  {
    hide Rotated;
  }

  lemma NoneHigher(k: Kernel, p: nat)
    requires Core(k) && k.running && k.suspended == 0 && Ring(k, p) != []
    ensures p <= SwitchContext(k).topReady
  {
    hide Timed, Live, Counted, Populated, TopNonEmpty;
    SwitchSelectsHighest(k);
    var t := Ring(k, p)[0];
    assert t in Ring(k, p) && HasPlace(k.items, t, Ready(p));
    assert Generic(SwitchContext(k).items, t) == Ready(p);
  }

  /** With nothing pending, missed or asked for, the outermost resume does nothing but resume. */
  lemma QuietResume(k: Kernel)
    requires Core(k) && k.running && k.suspended == 1
    requires At(k.items, Pending) == [] && k.missedTicks == 0 && !k.missedYield
    ensures ResumeAll(k) == k.(suspended := 0)
  {
    hide Core;
    YieldDueIs(k);
  }

  /** A resume that is not the outermost one only counts. */
  lemma InnerResume(k: Kernel)
    requires k.suspended > 1
    ensures ResumeAll(k) == k.(suspended := k.suspended - 1)
  {
  }

  /** A pending task of the running task's own priority makes it yield: the ring of that
      priority, which has the pending task in it by then, turns. */
  lemma EqualPriorityYields(k: Kernel, t: Task)
    requires Consistent(k) && k.running && k.suspended == 1 && k.missedTicks == 0 && RunsHighest(k)
    requires t in At(k.items, Pending) && Priority(k, t) == Priority(k, k.current)
    requires forall x :: x in At(k.items, Pending) ==> Priority(k, x) <= Priority(k, k.current)
    ensures var r, c, p := ResumeAll(k), Resumed(k), Priority(k, k.current);
            t in Ring(c, p) && HighestTurned(c, r, p)
  {
    hide Core, Resumed, SwitchContext, ResumeAll, Ring;
    var r, c, p := ResumeAll(k), Resumed(k), Priority(k, k.current);
    assert YieldDue(k);
    ResumeIsExact(k);
    ResumedKeepsCore(k);
    PendingIsReadied(k, t);
    var l := r.topReady;
    assert Ring(c, p) != [] by { assert t in Ring(c, p); }
    FirstIsReady(c, l);
    ResumedReadies(k, Ring(c, l)[0]);
  }

  lemma FirstIsReady(k: Kernel, l: nat)
    requires Core(k) && Ring(k, l) != []
    ensures Generic(k.items, Ring(k, l)[0]) == Ready(l) && Priority(k, Ring(k, l)[0]) == l
  {
    hide Timed, Live, Counted, Populated;
    var t := Ring(k, l)[0];
    assert t in Ring(k, l) && HasPlace(k.items, t, Ready(l));
  }

  lemma PendingIsReadied(k: Kernel, t: Task)
    requires Core(k) && k.running && k.suspended == 1 && k.missedTicks == 0 && t in At(k.items, Pending)
    ensures t in Ring(Resumed(k), Priority(k, t))
  {
    hide Levelled, Timed, Live, Counted, Populated, UnblockAll;
    ResumedKeepsCore(k);
    TasksCounted(k);
    PendingMembers(k);
    UnblockAllPlaces(k.items, At(k.items, Pending), k.priority);
    assert Generic(Resumed(k).items, t) == Ready(Priority(k, t));
  }

  // ---- while the scheduler is suspended ----

  /** A suspension in which nothing happens leaves nothing behind. */
  lemma SuspendThenResume(k: Kernel)
    requires Consistent(k) && k.running && k.suspended == 0 && !k.missedYield
    ensures ResumeAll(SuspendAll(k)) == k
  {
    hide Placed, Levelled, Timed, Populated, Based;
    NobodyPending(k);
    assert !YieldOnResume(SuspendAll(k));
  }

  lemma NobodyPending(k: Kernel)
    requires Core(k) && k.suspended == 0
    ensures At(k.items, Pending) == []
  {
    hide Levelled, Timed, Counted, Populated;
    var ts := At(k.items, Pending);
    PendingMembers(k);
    assert forall t :: t !in ts;
    if ts != [] { SomeMember(ts); }
  }

  lemma SomeMember(ts: seq<Task>)
    requires ts != []
    ensures exists t :: t in ts
  {
    assert ts[0] in ts;
  }

  /** Interrupts, switches and inner suspensions: what can happen to a suspended scheduler
      without the running task blocking or creating, deleting or changing tasks. */
  predicate Outer(s: Step) {
    s.TickInterrupt? || s.Suspend? || s.Resume? || s.Yield? || s.MissYield? || s.WakeFirst?
  }

  lemma NothingMoves(k: Kernel, s: Step)
    requires Core(k) && Enabled(k, s) && Outer(s) && k.suspended > 0 && Apply(k, s).suspended > 0
    ensures var r := Apply(k, s);
            && r.current == k.current && r.tick == k.tick && r.running && (forall p: nat :: Ring(r, p) == Ring(k, p))
            && r.missedTicks == k.missedTicks + (if s.TickInterrupt? then 1 else 0)
  {
    hide Levelled, Timed, Live, Counted, Populated, CatchUp, CheckDelayed;
    match s
    case Resume => ResumedKeepsCore(k);
    case WakeFirst(q) => FirstWaiter(k, q);
    case _ =>
  }

  ghost predicate OuterRun(k: Kernel, steps: seq<Step>)
    decreases |steps|
  {
    k.suspended > 0 && (steps != [] ==> Outer(steps[0]) && OuterRun(Apply(k, steps[0]), steps[1..]))
  }

  ghost function Ticks(steps: seq<Step>): nat {
    if steps == [] then 0 else (if steps[0].TickInterrupt? then 1 else 0) + Ticks(steps[1..])
  }

  /** As long as the scheduler is suspended, whatever interrupts do, the same task runs, nobody
      becomes ready and the clock stands still, while each tick is kept for later. */
  lemma {:induction false} SuspendedStandsStill(k: Kernel, steps: seq<Step>)
    requires Consistent(k) && RunEnabled(k, steps) && OuterRun(k, steps)
    ensures var r := Run(k, steps);
            && r.current == k.current && r.tick == k.tick && (forall p: nat :: Ring(r, p) == Ring(k, p))
            && r.missedTicks == k.missedTicks + Ticks(steps)
    decreases |steps|
  {
    hide Consistent, Enabled, Apply, Ring;
    if steps != [] {
      assert OuterRun(Apply(k, steps[0]), steps[1..]);
      assert Core(k) by { ConsistentCore(k); }
      NothingMoves(k, steps[0]);
      ApplyKeepsConsistent(k, steps[0]);
      SuspendedStandsStill(Apply(k, steps[0]), steps[1..]);
    }
  }

  lemma ConsistentCore(k: Kernel)
    requires Consistent(k)
    ensures Core(k)
  {
  }
}
