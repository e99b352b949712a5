/**
 * Stopping a timer: a timer at rest is not called until it is started again, and a STOP
 * brings a timer to rest exactly if the daemon was not late for it before it took the STOP.
 */
module TimerStops {
  import opened Arith
  import opened Seqs
  import opened Timeouts
  import opened Timers
  import opened TimerPromises

  /** Does the command set its timer going? */
  predicate Begins(command: Command) { command.Start? || command.ChangePeriod? }

  /** Does it take its timer off? */
  predicate Ends(command: Command) { command.Stop? || command.Delete? }

  /** A command that will set timer `t` going is in the queue. */
  ghost predicate Awaits(q: seq<Message>, t: Timer) {
    exists i :: 0 <= i < |q| && q[i].timer == t && Begins(q[i].command)
  }

  /** The timer is in no list, and nothing on the way sets it going. */
  ghost predicate AtRest(s: Daemon, t: Timer) {
    InLists(s, t) == [] && !Awaits(s.queue, t)
  }

  lemma AwaitsAppend(q: seq<Message>, k: nat, m: Message, t: Timer)
    requires k <= |q|
    ensures Awaits((q + [m])[k..], t) <==> Awaits(q[k..], t) || (m.timer == t && Begins(m.command))
  {
    var a, b := q[k..], (q + [m])[k..];
    assert b == a + [m];
    assert b[|a|] == m && forall i :: 0 <= i < |a| ==> b[i] == a[i];
  }

  lemma AwaitsFirst(q: seq<Message>, t: Timer)
    requires q != []
    ensures Awaits(q, t) <==> (q[0].timer == t && Begins(q[0].command)) || Awaits(q[1..], t)
  {
    assert q == [q[0]] + q[1..];
    assert forall i :: 0 < i < |q| ==> q[i] == q[1..][i - 1];
  }

  // ---- STARTs that the daemon sends behind a message ----

  /** A switch sends a START for each auto-reload timer of the list and for nobody else. */
  lemma {:induction false} SwitchLoopSends(s: Daemon, k: nat, t: Timer)
    requires Sound(s) && k <= |s.queue|
    ensures s.queue <= SwitchLoop(s).queue
    ensures Awaits(SwitchLoop(s).queue[k..], t) <==> Awaits(s.queue[k..], t) || (t in s.autoReload && Dues(s.current, t) != [])
    decreases Measure(s.current, s.modulus)
  {
    hide Lists, OfEpoch, Measure, Epoch, Dues, Fired, OnlyStarts, Tokens, Insert, Awaits, Stays;
    if s.current == [] {
      NoDues(t);
    } else {
      var e, r := s.current[0], SwitchRound(s);
      SwitchRoundFires(s);
      SwitchRoundMeasure(s);
      RoundDues(s);
      RoundSends(s);
      HeadDue(s);
      AwaitsAppend(s.queue, k, Message(e.timer, Start, e.due), t);
      SwitchLoopSends(r, k, t);
    }
  }

  /** The step finds timer `t` late, and sends a START for it: an expiry is processed when the
      next one has passed, the lists are switched with the timer in the old one, or a START is
      taken when its expiry has passed. */
  ghost predicate Late(s: Daemon, step: Step, t: Timer)
    requires Sound(s)
  {
    t in s.autoReload && match step
    case Post(_) => false
    case TimerOrBlock(now) =>
      if now % s.modulus < s.last % s.modulus then Listed(s.current, t)
      else s.current != [] && s.current[0].timer == t && s.current[0].due + Period(s, t) <= now
    case Begin(now) => now % s.modulus < s.last % s.modulus && Listed(s.current, t)
    case One => s.queue != [] && s.queue[0].timer == t && s.queue[0].command == Start && s.queue[0].time + Period(s, t) <= s.last
  }

  lemma SampleSends(s: Daemon, now: nat, k: nat, t: Timer)
    requires Sound(s) && s.last <= now < s.last + s.modulus && k <= |s.queue|
    ensures s.queue <= Sample(s, now).queue
    ensures Awaits(Sample(s, now).queue[k..], t) <==> Awaits(s.queue[k..], t) || Late(s, Begin(now), t)
  {
    hide Lists, OfEpoch, SwitchLoop, Awaits, Epoch;
    if now % s.modulus < s.last % s.modulus { SwitchLoopSends(s, k, t); }
  }

  lemma ProcessTimerSends(s: Daemon, now: nat, k: nat, t: Timer)
    requires Sound(s) && s.last <= now < s.last + s.modulus && k <= |s.queue|
    ensures s.queue <= ProcessTimer(s, now).queue
    ensures Awaits(ProcessTimer(s, now).queue[k..], t) <==> Awaits(s.queue[k..], t) || Late(s, TimerOrBlock(now), t)
  {
    hide Lists, OfEpoch, Sample, Awaits, Epoch, ProcessExpired;
    SampleSound(s, now);
    SampleSends(s, now, k, t);
    var r := Sample(s, now);
    if now % s.modulus >= s.last % s.modulus && s.current != [] {
      HeadTaken(r);
      SampledHead(s, now);
      if s.current[0].value <= now % s.modulus { ExpiredSends(r, k, t); }
    }
  }

  lemma SampledHead(s: Daemon, now: nat)
    requires Sound(s) && s.last <= now < s.last + s.modulus && now % s.modulus >= s.last % s.modulus && s.current != []
    ensures s.current[0].value <= now % s.modulus <==> s.current[0].due <= now
  {
    hide Lists;
    Later(s.modulus, s.last, now);
    assert s.current[0] in s.current;
    SameEpoch(s.modulus, s.current[0].due, now);
  }

  lemma ExpiredSends(s: Daemon, k: nat, t: Timer)
    requires Sound(s) && s.current != [] && s.current[0].value <= s.last % s.modulus && k <= |s.queue|
    ensures s.queue <= ProcessExpired(s).queue
    ensures var e := s.current[0];
            Awaits(ProcessExpired(s).queue[k..], t) <==>
            Awaits(s.queue[k..], t) || (t == e.timer && t in s.autoReload && e.due + Period(s, t) <= s.last)
  {
    hide Lists, OfEpoch, InsertTimer, VerdictFor, Awaits, Epoch;
    var e, rest := s.current[0], s.(current := s.current[1..]);
    HeadTaken(s);
    SameEpoch(s.modulus, e.due, s.last);
    InsertTimerSound(rest, e.timer, e.due);
    InsertFrame(rest, e.timer, e.due);
    AwaitsAppend(s.queue, k, Message(e.timer, Start, e.due), t);
  }

  lemma CommandSends(s: Daemon, k: nat, t: Timer)
    requires Sound(s) && Timely(s) && 0 < k <= |s.queue|
    ensures s.queue[1..] <= ProcessCommand(s).queue
    ensures Awaits(ProcessCommand(s).queue[k - 1..], t) <==> Awaits(s.queue[k..], t) || Late(s, One, t)
  {
    hide Lists, OfEpoch, Taken, InsertTimer, Period, VerdictFor, Awaits, Listed;
    var m, rest := s.queue[0], Taken(s);
    TakenFrame(s);
    assert s.queue[1..][k - 1..] == s.queue[k..];
    match m.command
    case Start =>
      InsertFrame(rest, m.timer, m.time);
      TakenEffect(s);
      InsertTimerSound(rest, m.timer, m.time);
      AwaitsAppend(s.queue[1..], k - 1, Message(m.timer, Start, m.time + Period(s, m.timer)), t);
    case ChangePeriod(p) =>
      InsertFrame(rest.(period := s.period[m.timer := p]), m.timer, s.last);
    case _ =>
  }

  /** What stands behind a message, after a step that does not take it. */
  lemma StepSends(s: Daemon, step: Step, at: nat, t: Timer)
    requires Sound(s) && Enabled(s, step) && at < |s.queue| && (step.One? ==> at > 0)
    requires step.Post? && step.message.timer == t ==> !Begins(step.message.command)
    ensures var r, still := Apply(s, step), if step.One? then at - 1 else at;
            && still < |r.queue| && r.queue[still] == s.queue[at]
            && (Awaits(r.queue[still + 1..], t) <==> Awaits(s.queue[at + 1..], t) || Late(s, step, t))
  {
    hide Lists, OfEpoch, ProcessTimer, ProcessCommand, Sample, Awaits, Period, Timely, Late;
    var r := Apply(s, step);
    match step
    case Post(m) => AwaitsAppend(s.queue, at + 1, m, t); assert !Late(s, step, t) by { PostIsNotLate(s, m, t); }
    case TimerOrBlock(now) => ProcessTimerSends(s, now, at + 1, t);
    case Begin(now) => SampleSends(s, now, at + 1, t);
    case One => CommandSends(s, at + 1, t); assert r.queue[at - 1] == s.queue[1..][at - 1];
  }

  lemma PostIsNotLate(s: Daemon, m: Message, t: Timer)
    requires Sound(s)
    ensures !Late(s, Post(m), t)
  {
  }

  // ---- whole runs ----

  ghost predicate NotStarted(steps: seq<Step>, t: Timer) {
    forall step :: step in steps && step.Post? && step.message.timer == t ==> !Begins(step.message.command)
  }

  ghost function Ones(steps: seq<Step>): nat {
    if steps == [] then 0 else (if steps[0].One? then 1 else 0) + Ones(steps[1..])
  }

  ghost predicate LateIn(s: Daemon, steps: seq<Step>, t: Timer)
    requires Sound(s) && RunEnabled(s, steps)
    decreases |steps|
  {
    steps != [] && (Late(s, steps[0], t) || (StepKeeps(s, steps[0]); LateIn(Apply(s, steps[0]), steps[1..], t)))
  }

  lemma {:induction false} RunSends(s: Daemon, steps: seq<Step>, at: nat, t: Timer)
    requires Sound(s) && RunEnabled(s, steps) && NotStarted(steps, t) && at < |s.queue| && Ones(steps) == at
    ensures var r := Run(s, steps);
            && Sound(r) && r.queue != [] && r.queue[0] == s.queue[at]
            && (Awaits(r.queue[1..], t) <==> Awaits(s.queue[at + 1..], t) || LateIn(s, steps, t))
    decreases |steps|
  {
    hide Sound, Enabled, Apply, Awaits, Late, Period;
    if steps != [] {
      StepKeeps(s, steps[0]);
      assert steps[0] in steps && forall step :: step in steps[1..] ==> step in steps;
      StepSends(s, steps[0], at, t);
      RunSends(Apply(s, steps[0]), steps[1..], if steps[0].One? then at - 1 else at, t);
    }
  }

  /** A STOP (or a DELETE) for timer `t` has just been posted. */
  ghost predicate StopPosted(s: Daemon, t: Timer) {
    s.queue != [] && s.queue[|s.queue| - 1].timer == t && Ends(s.queue[|s.queue| - 1].command)
  }

  /**
   * A STOP has just been posted, and as many messages are taken as stand in front of it, while
   * nobody starts the timer.  Then the STOP is next, and taking it brings the timer to rest
   * if and only if the daemon has not been late for the timer since the STOP was posted.
   */
  lemma StopStops(s: Daemon, t: Timer, steps: seq<Step>)
    requires Sound(s) && StopPosted(s, t)
    requires RunEnabled(s, steps) && NotStarted(steps, t) && Ones(steps) == |s.queue| - 1
    ensures var r := Run(s, steps);
            && Sound(r) && r.queue != [] && r.queue[0] == s.queue[|s.queue| - 1] && Enabled(r, One)
            && (AtRest(Apply(r, One), t) <==> !LateIn(s, steps, t))
  {
    hide Lists, OfEpoch, Awaits, LateIn, Period, RunEnabled, Run, Taken, InLists;
    RunSends(s, steps, |s.queue| - 1, t);
    var r := Run(s, steps);
    assert s.queue[|s.queue|..] == [];
    NothingAwaited(t);
    TakenEffect(r);
    TakenFrame(r);
  }

  lemma NothingAwaited(t: Timer)
    ensures !Awaits([], t)
  {
  }

  // ---- at rest ----

  lemma NotListed(s: Daemon, t: Timer)
    ensures InLists(s, t) == [] <==> Dues(s.current, t) == [] && Dues(s.overflow, t) == []
  {
    hide Dues;
  }

  lemma RestThroughSample(s: Daemon, now: nat, t: Timer)
    requires Sound(s) && s.last <= now < s.last + s.modulus && InLists(s, t) == []
    ensures InLists(Sample(s, now), t) == [] && Fired(Sample(s, now).log, t) == Fired(s.log, t)
  {
    hide Lists, OfEpoch, SwitchLoop, Fired, Dues, Epoch;
    NotListed(s, t);
    if now % s.modulus < s.last % s.modulus {
      SwitchSkips(s, t);
      SwitchLoopSound(s);
      NoDues(t);
    }
    NotListed(Sample(s, now), t);
  }

  lemma RestThroughTimer(s: Daemon, now: nat, t: Timer)
    requires Sound(s) && s.last <= now < s.last + s.modulus && InLists(s, t) == []
    ensures InLists(ProcessTimer(s, now), t) == [] && Fired(ProcessTimer(s, now).log, t) == Fired(s.log, t)
  {
    hide Lists, OfEpoch, Sample, Fired, InsertTimer, VerdictFor, InLists, Epoch;
    SampleSound(s, now);
    RestThroughSample(s, now, t);
    var r := Sample(s, now);
    if now % s.modulus >= s.last % s.modulus && s.current != [] && s.current[0].value <= now % s.modulus {
      var e, rest := r.current[0], r.(current := r.current[1..]);
      HeadTaken(r);
      SameEpoch(s.modulus, e.due, r.last);
      InsertTimerSound(rest, e.timer, e.due);
      InsertFrame(rest, e.timer, e.due);
      FiredAppend(r.log, Firing(e.timer, e.due), t);
      ListsOnly(if e.timer in s.autoReload then InsertTimer(rest, e.timer, e.due) else rest, ProcessExpired(r), t);
    }
  }

  lemma ListsOnly(s: Daemon, r: Daemon, t: Timer)
    requires r.current == s.current && r.overflow == s.overflow
    ensures InLists(r, t) == InLists(s, t)
  {
  }

  lemma RestThroughCommand(s: Daemon, t: Timer)
    requires Sound(s) && Timely(s) && InLists(s, t) == [] && !(s.queue[0].timer == t && Begins(s.queue[0].command))
    ensures InLists(ProcessCommand(s), t) == [] && Fired(ProcessCommand(s).log, t) == Fired(s.log, t)
  {
    hide Lists, OfEpoch, Taken, InsertTimer, VerdictFor, InLists, Fired, Period;
    var m, rest, r := s.queue[0], Taken(s), ProcessCommand(s);
    TakenEffect(s);
    TakenFrame(s);
    match m.command
    case Start =>
      InsertTimerSound(rest, m.timer, m.time);
      InsertFrame(rest, m.timer, m.time);
      FiredAppend(s.log, Firing(m.timer, m.time + Period(s, m.timer)), t);
      ListsOnly(InsertTimer(rest, m.timer, m.time), r, t);
    case ChangePeriod(p) => NewPeriodElsewhere(s, p, t);
    case _ =>
  }

  lemma NewPeriodElsewhere(s: Daemon, p: nat, t: Timer)
    requires Sound(s) && Timely(s) && s.queue[0].command == ChangePeriod(p) && s.queue[0].timer != t
    ensures InLists(ProcessCommand(s), t) == InLists(s, t) && ProcessCommand(s).log == s.log
  {
    hide Lists, OfEpoch, Taken, InsertTimer, VerdictFor, InLists, Fired;
    var m, rest := s.queue[0], Taken(s);
    TakenEffect(s);
    TakenFrame(s);
    var changed := rest.(period := s.period[m.timer := p]);
    assert forall x :: Period(changed, x) == if x == m.timer then p else Period(s, x);
    PeriodsChanged(rest, changed);
    InsertTimerSound(changed, m.timer, s.last);
    InsertFrame(changed, m.timer, s.last);
  }

  lemma RestIsNotLate(s: Daemon, step: Step, t: Timer)
    requires Sound(s) && Enabled(s, step) && AtRest(s, t)
    ensures !Late(s, step, t)
  {
    hide Lists, OfEpoch, Awaits, Period, Timely;
    NotListed(s, t);
    match step
    case One => TimelyHasOne(s); AwaitsFirst(s.queue, t);
    case TimerOrBlock(_) => if s.current != [] { HeadDue(s); }
    case _ =>
  }

  lemma RestKept(s: Daemon, step: Step, t: Timer)
    requires Sound(s) && Enabled(s, step) && AtRest(s, t)
    requires step.Post? && step.message.timer == t ==> !Begins(step.message.command)
    ensures AtRest(Apply(s, step), t) && Fired(Apply(s, step).log, t) == Fired(s.log, t)
  {
    hide Lists, OfEpoch, ProcessTimer, ProcessCommand, Sample, Awaits, Period, Timely, Late, Fired, InLists;
    RestIsNotLate(s, step, t);
    var r := Apply(s, step);
    assert s.queue[0..] == s.queue && r.queue[0..] == r.queue;
    match step
    case Post(m) => AwaitsAppend(s.queue, 0, m, t); ListsOnly(s, r, t);
    case TimerOrBlock(now) => ProcessTimerSends(s, now, 0, t); RestThroughTimer(s, now, t);
    case Begin(now) => SampleSends(s, now, 0, t); RestThroughSample(s, now, t);
    case One =>
      assert s.queue != [] by { TimelyHasOne(s); }
      AwaitsFirst(s.queue, t);
      CommandSends(s, 1, t);
      RestThroughCommand(s, t);
  }

  lemma TimelyHasOne(s: Daemon)
    requires s.modulus > 0 && Timely(s)
    ensures s.queue != []
  {
  }

  /** A timer at rest is not called, and stays at rest, until a START or a new period is posted for it. */
  lemma {:induction false} RestIsQuiet(s: Daemon, steps: seq<Step>, t: Timer)
    requires Sound(s) && RunEnabled(s, steps) && AtRest(s, t) && NotStarted(steps, t)
    ensures Sound(Run(s, steps)) && AtRest(Run(s, steps), t) && Fired(Run(s, steps).log, t) == Fired(s.log, t)
    decreases |steps|
  {
    hide Sound, Enabled, Apply, AtRest, Fired, Period;
    if steps != [] {
      StepKeeps(s, steps[0]);
      assert steps[0] in steps && forall step :: step in steps[1..] ==> step in steps;
      RestKept(s, steps[0], t);
      RestIsQuiet(Apply(s, steps[0]), steps[1..], t);
    }
  }

  /** So a timer stopped in time is not called again until somebody starts it. */
  lemma StoppedIsQuiet(s: Daemon, t: Timer, steps: seq<Step>, after: seq<Step>)
    requires Sound(s) && StopPosted(s, t)
    requires RunEnabled(s, steps) && NotStarted(steps, t) && Ones(steps) == |s.queue| - 1 && !LateIn(s, steps, t)
    requires Sound(Run(s, steps)) && Enabled(Run(s, steps), One) && Sound(Apply(Run(s, steps), One))
    requires RunEnabled(Apply(Run(s, steps), One), after) && NotStarted(after, t)
    ensures Fired(Run(Apply(Run(s, steps), One), after).log, t) == Fired(Run(s, steps).log, t)
  {
    hide Lists, OfEpoch, LateIn, RunEnabled, AtRest, Fired, Period, Taken, NotStarted;
    StopStops(s, t, steps);
    var r := Run(s, steps);
    RestIsQuiet(Apply(r, One), after, t);
    StopCallsNobody(r);
  }

  lemma StopCallsNobody(s: Daemon)
    requires s.modulus > 0 && s.queue != [] && Ends(s.queue[0].command)
    ensures ProcessCommand(s).log == s.log
  {
    TakenFrame(s);
  }

  // ---- a STOP that is lost ----

  /** Timer 1 of period 2 is due at 3, and a STOP for it was sent at 4. */
  function LateDaemon(): Daemon {
    Daemon(16, map[1 := 2], {1}, [Entry(1, 3, 3)], [], [Message(1, Stop, 4)], 2, [])
  }

  /** The same daemon at time 9, when it has found the timer expired and put a START behind the STOP. */
  function LateDaemonAt9(): Daemon {
    Daemon(16, map[1 := 2], {1}, [], [], [Message(1, Stop, 4), Message(1, Start, 3)], 9, [Firing(1, 3)])
  }

  /** The STOP is taken; the START waits. */
  function LateDaemonStopped(): Daemon {
    Daemon(16, map[1 := 2], {1}, [], [], [Message(1, Start, 3)], 9, [Firing(1, 3)])
  }

  /** The START is taken: the expiry at 5 has passed, too. */
  function LateDaemonGoingOn(): Daemon {
    Daemon(16, map[1 := 2], {1}, [], [], [Message(1, Start, 5)], 9, [Firing(1, 3), Firing(1, 5)])
  }

  lemma LateDaemonIsSound()
    ensures Sound(LateDaemon()) && StopPosted(LateDaemon(), 1)
  {
  }

  lemma LateExpiry()
    requires Sound(LateDaemon())
    ensures Enabled(LateDaemon(), TimerOrBlock(9)) && Apply(LateDaemon(), TimerOrBlock(9)) == LateDaemonAt9()
    ensures Late(LateDaemon(), TimerOrBlock(9), 1)
  {
    hide Sound;
    assert ProcessExpired(LateDaemon().(last := 9)) == LateDaemonAt9();
  }

  lemma LateSample()
    ensures Sound(LateDaemonAt9()) && Enabled(LateDaemonAt9(), Begin(9)) && Apply(LateDaemonAt9(), Begin(9)) == LateDaemonAt9()
  {
  }

  lemma LateStop()
    ensures Sound(LateDaemonAt9()) && Enabled(LateDaemonAt9(), One) && Apply(LateDaemonAt9(), One) == LateDaemonStopped()
  {
  }

  lemma LateStart()
    ensures Sound(LateDaemonStopped()) && Enabled(LateDaemonStopped(), One)
    ensures Apply(LateDaemonStopped(), One) == LateDaemonGoingOn() && Sound(LateDaemonGoingOn())
  {
    assert VerdictFor(Taken(LateDaemonStopped()), 1, 3) == ProcessNow;
  }

  lemma GoingOn()
    ensures var r := LateDaemonGoingOn();
            r.log == [Firing(1, 3), Firing(1, 5)] && r.queue == [Message(1, Start, 5)] && !AtRest(r, 1)
  {
    assert LateDaemonGoingOn().queue[0].timer == 1;
  }

  /** The STOP is the only message, and the daemon is late: it finds the expiry at 3 when it is
      9.  After the STOP the stopped timer is called for 5 as well, and goes on. */
  lemma StopIsLost()
    ensures Sound(LateDaemon()) && StopPosted(LateDaemon(), 1) && Late(LateDaemon(), TimerOrBlock(9), 1)
    ensures RunEnabled(LateDaemon(), [TimerOrBlock(9), Begin(9), One, One])
    ensures var r := Run(LateDaemon(), [TimerOrBlock(9), Begin(9), One, One]);
            r.log == [Firing(1, 3), Firing(1, 5)] && r.queue == [Message(1, Start, 5)] && !AtRest(r, 1)
  {
    hide LateDaemon, LateDaemonAt9, LateDaemonStopped, LateDaemonGoingOn, Sound, Enabled, Apply, Late, AtRest;
    LateDaemonIsSound();
    LateExpiry();
    LateSample();
    LateStop();
    LateStart();
    GoingOn();
    RunOn(LateDaemonStopped(), One, []);
    RunOn(LateDaemonAt9(), One, [One]);
    RunOn(LateDaemonAt9(), Begin(9), [One, One]);
    RunOn(LateDaemon(), TimerOrBlock(9), [Begin(9), One, One]);
  }
}
