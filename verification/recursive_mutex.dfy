/**
 * The recursive mutex (queue.c), used through xQueueTakeMutexRecursive and
 * xQueueGiveMutexRecursive only.  The look at the holder, the critical section of the
 * queue and the change of the call count are separate steps, and the steps of different
 * tasks interleave in any way.
 */
module RecursiveMutex {
  import opened Tasks

  /** Where a task is in a call. */
  datatype Place =
    | Outside
    | Asking        // not the holder, on its way to the queue or waiting at it
    | Counting      // has the mutex, and uxRecursiveCallCount is still to be raised
    | Releasing     // the count is down to zero and the mutex still to be given back

  datatype World = World(
    messages: nat,
    holder: Holder,
    callCount: int,
    places: map<Task, Place>,
    nesting: map<Task, nat>)   // takes that succeeded less gives that succeeded

  datatype Step =
    | StartTake(task: Task)
    | Receive(task: Task)
    | GiveUp(task: Task)
    | Count(task: Task)
    | StartGive(task: Task)
    | Release(task: Task)

  function At(w: World, t: Task): Place { if t in w.places then w.places[t] else Outside }
  function Nesting(w: World, t: Task): nat { if t in w.nesting then w.nesting[t] else 0 }

  function Goes(w: World, t: Task, p: Place): (r: World)
    ensures r == w.(places := r.places)
    ensures forall x :: At(r, x) == if x == t then p else At(w, x)
  {
    w.(places := w.places[t := p])
  }

  function Nests(w: World, t: Task, n: nat): (r: World)
    ensures r == w.(nesting := r.nesting)
    ensures forall x :: Nesting(r, x) == if x == t then n else Nesting(w, x)
  {
    w.(nesting := w.nesting[t := n])
  }

  predicate Enabled(w: World, s: Step) {
    match s
    case StartTake(t) => At(w, t) == Outside
    case Receive(t) => At(w, t) == Asking
    case GiveUp(t) => At(w, t) == Asking
    case Count(t) => At(w, t) == Counting
    case StartGive(t) => At(w, t) == Outside
    case Release(t) => At(w, t) == Releasing
  }

  function Apply(w: World, s: Step): World {
    match s
    case StartTake(t) =>
      if w.holder == HeldBy(t) then Nests(w, t, Nesting(w, t) + 1).(callCount := w.callCount + 1)
      else Goes(w, t, Asking)
    case Receive(t) =>
      // with nothing there the task waits and looks again
      if w.messages == 0 then w
      else Goes(Nests(w, t, Nesting(w, t) + 1), t, Counting).(messages := w.messages - 1, holder := HeldBy(t))
    case GiveUp(t) => Goes(w, t, Outside)
    case Count(t) => Goes(w, t, Outside).(callCount := w.callCount + 1)
    case StartGive(t) =>
      if w.holder != HeldBy(t) then w
      else
        var r := Nests(w, t, if Nesting(w, t) > 0 then Nesting(w, t) - 1 else 0).(callCount := w.callCount - 1);
        if r.callCount == 0 then Goes(r, t, Releasing) else r
    case Release(t) =>
      // a full queue would refuse the send
      if w.messages >= 1 then Goes(w, t, Outside)
      else Goes(w, t, Outside).(messages := w.messages + 1, holder := Nobody)
  }

  /** The call count says how often the holder has taken the mutex. */
  ghost predicate Inv(w: World) {
    && (w.messages == if w.holder == Nobody then 1 else 0)
    && (w.holder == Nobody ==> w.callCount == 0)
    && (forall t :: w.holder != HeldBy(t) ==> At(w, t) in {Outside, Asking} && Nesting(w, t) == 0)
    && (forall t :: w.holder == HeldBy(t) ==>
          match At(w, t)
          case Outside => w.callCount == Nesting(w, t) > 0
          case Counting => w.callCount + 1 == Nesting(w, t) == 1
          case Releasing => w.callCount == Nesting(w, t) == 0
          case Asking => false)
  }

  lemma StepKeeps(w: World, s: Step)
    requires Inv(w) && Enabled(w, s)
    ensures Inv(Apply(w, s))
  {
  }

  function Run(w: World, steps: seq<Step>): World
    decreases |steps|
  {
    if steps == [] then w else Run(Apply(w, steps[0]), steps[1..])
  }

  predicate RunEnabled(w: World, steps: seq<Step>)
    decreases |steps|
  {
    steps != [] ==> Enabled(w, steps[0]) && RunEnabled(Apply(w, steps[0]), steps[1..])
  }

  /** A mutex just created. */
  function Fresh(): World { World(1, Nobody, 0, map[], map[]) }

  lemma {:induction false} RunKeeps(w: World, steps: seq<Step>)
    requires Inv(w) && RunEnabled(w, steps)
    ensures Inv(Run(w, steps))
    decreases |steps|
  {
    hide Inv, Apply, Enabled;
    if steps != [] {
      StepKeeps(w, steps[0]);
      RunKeeps(Apply(w, steps[0]), steps[1..]);
    }
  }

  /**
   * In every state that a run from a fresh mutex reaches: the mutex is gone from the queue
   * exactly if it has a holder, only the holder has unfinished takes, and the call count is
   * the number of them, one behind while a first take is about to be counted.
   */
  lemma CallCountIsNesting(steps: seq<Step>)
    requires RunEnabled(Fresh(), steps)
    ensures var w := Run(Fresh(), steps);
            && (w.messages == 0 <==> w.holder != Nobody) && w.callCount >= 0
            && (forall t :: Nesting(w, t) > 0 ==> w.holder == HeldBy(t))
            && (forall t :: w.holder == HeldBy(t) ==> w.callCount == Nesting(w, t) - (if At(w, t) == Counting then 1 else 0))
  {
    RunKeeps(Fresh(), steps);
  }

  /** Takes less gives of `t` that succeed in a run. */
  function Balance(w: World, steps: seq<Step>, t: Task): int
    decreases |steps|
  {
    if steps == [] then 0
    else
      (match steps[0]
       case StartTake(x) => if x == t && w.holder == HeldBy(t) then 1 else 0
       case Receive(x) => if x == t && w.messages > 0 then 1 else 0
       case StartGive(x) => if x == t && w.holder == HeldBy(t) then -1 else 0
       case _ => 0) + Balance(Apply(w, steps[0]), steps[1..], t)
  }

  lemma {:induction false} NestingIsBalance(w: World, steps: seq<Step>, t: Task)
    requires Inv(w) && RunEnabled(w, steps)
    ensures Nesting(Run(w, steps), t) == Nesting(w, t) + Balance(w, steps, t)
    decreases |steps|
  {
    hide Goes, Nests;
    if steps != [] {
      StepKeeps(w, steps[0]);
      NestingIsBalance(Apply(w, steps[0]), steps[1..], t);
    }
  }

  /**
   * Nobody else gets the mutex while its holder has takes to give back: as long as `h` has
   * taken it more often than it gave it, at every point of a run, it stays the holder.
   */
  lemma {:induction false} HeldUntilBalanced(w: World, steps: seq<Step>, h: Task)
    requires Inv(w) && RunEnabled(w, steps) && w.holder == HeldBy(h)
    requires forall n :: 0 <= n < |steps| ==> Nesting(w, h) + Balance(w, steps[..n], h) > 0
    ensures Run(w, steps).holder == HeldBy(h)
    decreases |steps|
  {
    hide Goes, Nests;
    if steps != [] {
      var s, r := steps[0], Apply(w, steps[0]);
      assert steps[..0] == [] && Nesting(w, h) > 0;
      StepKeeps(w, s);
      assert r.holder == HeldBy(h);
      assert RunEnabled(w, [s]) && Run(w, [s]) == r by { assert [s][1..] == []; }
      NestingIsBalance(w, [s], h);
      forall n | 0 <= n < |steps[1..]|
        ensures Nesting(r, h) + Balance(r, steps[1..][..n], h) > 0
      {
        assert steps[..n + 1][1..] == steps[1..][..n];
        assert Balance(w, steps[..n + 1], h) == Balance(w, [s], h) + Balance(r, steps[1..][..n], h) by { assert [s][1..] == []; }
      }
      HeldUntilBalanced(r, steps[1..], h);
    }
  }

  /** Whatever other tasks do with the mutex, takes and gives alike, they change nothing of it:
      not whether it is there, nor its holder, its call count or where the holder is. */
  lemma {:induction false} StrangersChangeNothing(w: World, steps: seq<Step>, h: Task)
    requires Inv(w) && RunEnabled(w, steps) && w.holder == HeldBy(h)
    requires forall s :: s in steps ==> s.task != h
    ensures var r := Run(w, steps);
            && r.messages == w.messages && r.holder == w.holder && r.callCount == w.callCount
            && At(r, h) == At(w, h) && (forall t :: Nesting(r, t) == Nesting(w, t))
    decreases |steps|
  {
    hide Goes, Nests;
    if steps != [] {
      assert steps[0] in steps && forall s :: s in steps[1..] ==> s in steps;
      StepKeeps(w, steps[0]);
      StrangersChangeNothing(Apply(w, steps[0]), steps[1..], h);
    }
  }

  // ---- takes and gives that nest ----

  function Repeated(s: Step, n: nat): (r: seq<Step>)
    ensures |r| == n
  {
    if n == 0 then [] else [s] + Repeated(s, n - 1)
  }

  lemma {:induction false} RunInTwo(w: World, a: seq<Step>, b: seq<Step>)
    requires RunEnabled(w, a) && RunEnabled(Run(w, a), b)
    ensures RunEnabled(w, a + b) && Run(w, a + b) == Run(Run(w, a), b)
    decreases |a|
  {
    hide Apply, Enabled;
    if a == [] {
      assert a + b == b;
    } else {
      assert (a + b)[1..] == a[1..] + b;
      RunInTwo(Apply(w, a[0]), a[1..], b);
    }
  }

  /** The mutex is free, and task `t` is in no call of it. */
  ghost predicate FreeFor(w: World, t: Task) {
    Inv(w) && w.holder == Nobody && At(w, t) == Outside
  }

  ghost predicate HeldTimes(w: World, t: Task, n: nat) {
    Inv(w) && w.holder == HeldBy(t) && At(w, t) == Outside && w.callCount == n
  }

  lemma RunOn(w: World, s: Step, rest: seq<Step>)
    requires Enabled(w, s) && RunEnabled(Apply(w, s), rest)
    ensures RunEnabled(w, [s] + rest) && Run(w, [s] + rest) == Run(Apply(w, s), rest)
  {
    hide Apply, Enabled;
    assert ([s] + rest)[1..] == rest;
  }

  lemma NoSteps(w: World)
    ensures RunEnabled(w, []) && Run(w, []) == w
  {
  }

  /** The first take of a free mutex. */
  lemma FirstTake(w: World, t: Task)
    requires FreeFor(w, t)
    ensures var steps := [StartTake(t), Receive(t), Count(t)];
            RunEnabled(w, steps) && HeldTimes(Run(w, steps), t, 1)
  {
    hide Run, RunEnabled;
    var w1 := Apply(w, StartTake(t));
    StepKeeps(w, StartTake(t));
    var w2 := Apply(w1, Receive(t));
    StepKeeps(w1, Receive(t));
    var w3 := Apply(w2, Count(t));
    StepKeeps(w2, Count(t));
    assert HeldTimes(w3, t, 1) && Enabled(w, StartTake(t)) && Enabled(w1, Receive(t)) && Enabled(w2, Count(t));
    hide Apply, Inv, Enabled, HeldTimes;
    assert [Count(t)] + [] == [Count(t)] && [Receive(t)] + [Count(t)] == [Receive(t), Count(t)];
    assert [StartTake(t)] + [Receive(t), Count(t)] == [StartTake(t), Receive(t), Count(t)];
    NoSteps(w3);
    RunOn(w2, Count(t), []);
    RunOn(w1, Receive(t), [Count(t)]);
    RunOn(w, StartTake(t), [Receive(t), Count(t)]);
  }

  lemma OneMoreTake(w: World, t: Task, m: nat)
    requires HeldTimes(w, t, m)
    ensures Enabled(w, StartTake(t)) && HeldTimes(Apply(w, StartTake(t)), t, m + 1)
  {
    StepKeeps(w, StartTake(t));
  }

  lemma {:induction false} MoreTakes(w: World, t: Task, m: nat, n: nat)
    requires HeldTimes(w, t, m)
    ensures var steps := Repeated(StartTake(t), n);
            RunEnabled(w, steps) && HeldTimes(Run(w, steps), t, m + n)
    decreases n
  {
    hide HeldTimes, Apply, Enabled, Run, RunEnabled;
    if n == 0 {
      NoSteps(w);
    } else {
      OneMoreTake(w, t, m);
      MoreTakes(Apply(w, StartTake(t)), t, m + 1, n - 1);
      RunOn(w, StartTake(t), Repeated(StartTake(t), n - 1));
    }
  }

  lemma OneGive(w: World, t: Task, n: nat)
    requires n > 0 && HeldTimes(w, t, n)
    ensures var r := Apply(w, StartGive(t));
            && Enabled(w, StartGive(t))
            && if n > 1 then HeldTimes(r, t, n - 1)
               else r.holder == HeldBy(t) && Enabled(r, Release(t)) && FreeFor(Apply(r, Release(t)), t)
  {
    StepKeeps(w, StartGive(t));
    if n == 1 { StepKeeps(Apply(w, StartGive(t)), Release(t)); }
  }

  /** As many gives as takes: only after the last of them is the mutex on its way back. */
  lemma {:induction false} GivesUnwind(w: World, t: Task, n: nat)
    requires n > 0 && HeldTimes(w, t, n)
    ensures var steps := Repeated(StartGive(t), n) + [Release(t)];
            RunEnabled(w, steps) && FreeFor(Run(w, steps), t)
    decreases n
  {
    hide HeldTimes, FreeFor, Apply, Enabled, Run, RunEnabled;
    var w1, rest := Apply(w, StartGive(t)), Repeated(StartGive(t), n - 1) + [Release(t)];
    OneGive(w, t, n);
    if n == 1 {
      NoSteps(Apply(w1, Release(t)));
      RunOn(w1, Release(t), []);
      assert rest == [Release(t)] + [];
    } else {
      GivesUnwind(w1, t, n - 1);
    }
    RunOn(w, StartGive(t), rest);
    assert Repeated(StartGive(t), n) + [Release(t)] == [StartGive(t)] + rest;
  }

  /**
   * A task that takes a free mutex n + 1 times holds it with that call count, and as many
   * gives leave it free again: takes and gives nest.
   */
  lemma TakesAndGivesNest(w: World, t: Task, n: nat)
    requires FreeFor(w, t)
    ensures var takes := [StartTake(t), Receive(t), Count(t)] + Repeated(StartTake(t), n);
            var gives := Repeated(StartGive(t), n + 1) + [Release(t)];
            && RunEnabled(w, takes) && HeldTimes(Run(w, takes), t, n + 1)
            && RunEnabled(w, takes + gives) && FreeFor(Run(w, takes + gives), t)
  {
    hide Inv, Apply, Enabled, Repeated, HeldTimes, FreeFor;
    var first, more := [StartTake(t), Receive(t), Count(t)], Repeated(StartTake(t), n);
    FirstTake(w, t);
    MoreTakes(Run(w, first), t, 1, n);
    RunInTwo(w, first, more);
    var gives := Repeated(StartGive(t), n + 1) + [Release(t)];
    GivesUnwind(Run(w, first + more), t, n + 1);
    RunInTwo(w, first + more, gives);
  }

  /** Whoever gives up waiting is where it was before it asked. */
  lemma GivingUp(w: World, t: Task)
    requires Inv(w) && At(w, t) == Outside && w.holder != HeldBy(t)
    ensures var asking := Apply(w, StartTake(t));
            && At(asking, t) == Asking && Enabled(asking, GiveUp(t))
            && var r := Apply(asking, GiveUp(t));
               && (forall x :: At(r, x) == At(w, x) && Nesting(r, x) == Nesting(w, x))
               && r.messages == w.messages && r.holder == w.holder && r.callCount == w.callCount
  {
  }
}
