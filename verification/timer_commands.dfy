/**
 * prvProcessReceivedCommands on any queue, whatever ticks the commands in it carry: the loop
 * ends, and a START makes the right call or entry exactly if it is looked at in time.
 */
module TimerCommands {
  import opened Arith
  import opened Seqs
  import opened Timeouts
  import opened Timers
  import opened TimerPromises

  // ---- one START ----

  /** A wrong verdict shows: as a call before its time or as an entry in the wrong list. */
  lemma WrongShows(s: Daemon, t: Timer, c: nat)
    requires Sound(s) && !InTime(s.modulus, c, s.last, Period(s, t))
    ensures VerdictFor(s, t, c) == ProcessNow ==> s.last < c + Period(s, t)
    ensures VerdictFor(s, t, c) != ProcessNow ==> !Sound(InsertTimer(s, t, c))
  {
    hide Lists, Insert, VerdictFor, InTime, Epoch;
    var e, r := NewEntry(s, t, c), InsertTimer(s, t, c);
    WrongVerdict(s, t, c);
    match VerdictFor(s, t, c)
    case ProcessNow =>
    case IntoCurrent => Inserted(s.current, e); assert e in r.current;
    case IntoOverflow => Inserted(s.overflow, e); assert e in r.overflow;
  }

  lemma WrongVerdict(s: Daemon, t: Timer, c: nat)
    requires s.modulus > 0 && 0 < Period(s, t) < s.modulus
    ensures Right(s.modulus, c, s.last, Period(s, t), VerdictFor(s, t, c)) <==> InTime(s.modulus, c, s.last, Period(s, t))
    ensures VerdictFor(s, t, c) == IntoCurrent && Epoch(s.modulus, c + Period(s, t)) == Epoch(s.modulus, s.last) ==>
              Right(s.modulus, c, s.last, Period(s, t), IntoCurrent)
    ensures VerdictFor(s, t, c) == IntoOverflow && Epoch(s.modulus, c + Period(s, t)) == Epoch(s.modulus, s.last) + 1 ==>
              Right(s.modulus, c, s.last, Period(s, t), IntoOverflow)
  {
    hide InTime, Period;
    var m, n, p := s.modulus, s.last, Period(s, t);
    ClassifyIsExact(m, c, n, p);
    RemainderBounds(n, m);
    RemainderBounds(c + p, m);
    if Epoch(m, c + p) == Epoch(m, n) { SameEpoch(m, c + p, n); }
    if Epoch(m, c + p) == Epoch(m, n) + 1 { EarlierEpoch(m, n, c + p); }
  }

  lemma Inserted(l: seq<Entry>, e: Entry)
    ensures e in Insert(l, e)
  {
    InsertMembers(l, InsertPosition(EntryValues(l), e.value), e);
  }

  /**
   * Processing a START keeps the lists right and calls nobody before his time if and only if
   * the START is in time: the tick that it carries has been sampled, and it is less than a
   * turn old or visibly due.
   */
  lemma StartExact(s: Daemon)
    requires Sound(s) && NotEarly(s) && s.queue != [] && s.queue[0].command == Start
    ensures Sound(ProcessStart(s)) && NotEarly(ProcessStart(s)) <==>
            InTime(s.modulus, s.queue[0].time, s.last, Period(s, s.queue[0].timer))
  {
    hide InTime, Lists, OfEpoch, Period, NotEarly, ProcessStart;
    if Timely(s) {
      ProcessStartKeeps(s);
      CommandNotEarly(s);
    } else {
      WrongStart(s);
    }
  }

  lemma WrongStart(s: Daemon)
    requires Sound(s) && s.queue != [] && s.queue[0].command == Start
    requires !InTime(s.modulus, s.queue[0].time, s.last, Period(s, s.queue[0].timer))
    ensures !Sound(ProcessStart(s)) || !NotEarly(ProcessStart(s))
  {
    hide InTime, Lists, OfEpoch, Taken, InsertTimer, VerdictFor, Period;
    var m, rest, r := s.queue[0], Taken(s), ProcessStart(s);
    TakenEffect(s);
    TakenFrame(s);
    WrongShows(rest, m.timer, m.time);
    InsertFrame(rest, m.timer, m.time);
    var i := InsertTimer(rest, m.timer, m.time);
    if VerdictFor(rest, m.timer, m.time) == ProcessNow {
      assert r.log[|s.log|] == Firing(m.timer, m.time + Period(s, m.timer));
    } else if Sound(r) {
      SoundIsAboutLists(r, i);
      assert false;
    }
  }

  /** Timer 1 is started at 3 for 15 ticks; the START is in the queue when `last` is sampled. */
  function StaleDaemon(last: nat): Daemon {
    Daemon(16, map[1 := 15], {}, [], [], [Message(1, Start, 3)], last, [])
  }

  lemma StaleWaits()
    ensures Sound(StaleDaemon(3)) && Enabled(StaleDaemon(3), TimerOrBlock(14))
    ensures Apply(StaleDaemon(3), TimerOrBlock(14)) == StaleDaemon(14) && Sound(StaleDaemon(14))
  {
  }

  lemma StaleBegins()
    ensures Sound(StaleDaemon(14)) && Enabled(StaleDaemon(14), Begin(25))
    ensures Apply(StaleDaemon(14), Begin(25)) == StaleDaemon(25) && Sound(StaleDaemon(25))
  {
  }

  lemma StaleListed()
    ensures ProcessStart(StaleDaemon(25)) == StaleDaemon(25).(overflow := [Entry(1, 2, 18)], queue := [])
    ensures !Timely(StaleDaemon(25))
  {
    assert VerdictFor(Taken(StaleDaemon(25)), 1, 3) == IntoOverflow;
    assert Insert([], Entry(1, 2, 18)) == [Entry(1, 2, 18)];
  }

  /** No two samples are a turn of 16 apart, and yet a START is looked at too late: the expiry
      at 18 is put, at 25, into the list of the epoch that begins at 32. */
  lemma StaleStartExample()
    ensures Sound(StaleDaemon(3)) && NotEarly(StaleDaemon(3))
    ensures RunEnabled(StaleDaemon(3), [TimerOrBlock(14), Begin(25)])
    ensures var r := Run(StaleDaemon(3), [TimerOrBlock(14), Begin(25)]);
            && r == StaleDaemon(25) && Sound(r) && !Timely(r)
            && ProcessStart(r).overflow == [Entry(1, 2, 18)] && !Sound(ProcessStart(r))
  {
    assert NotEarly(StaleDaemon(3)) && NotEarly(StaleDaemon(25));
    hide StaleDaemon, Sound, Enabled, Apply, ProcessStart, NotEarly, Timely;
    StaleWaits();
    StaleBegins();
    StaleListed();
    StaleUnsound();
    RunOn(StaleDaemon(14), Begin(25), []);
    RunOn(StaleDaemon(3), TimerOrBlock(14), [Begin(25)]);
  }

  lemma StaleUnsound()
    ensures !Sound(ProcessStart(StaleDaemon(25)))
  {
    StaleListed();
    hide ProcessStart;
    var r := StaleDaemon(25).(overflow := [Entry(1, 2, 18)], queue := []);
    assert Entry(1, 2, 18) in r.overflow;
  }

  // ---- the whole queue ----

  /** What the code asserts of periods (timers.c:548) and leaves to the width of the count. */
  ghost predicate InRange(s: Daemon) {
    && s.modulus > 1 && (forall t :: 0 < Period(s, t) < s.modulus)
    && forall m :: m in s.queue && m.command.ChangePeriod? ==> 0 < m.command.ticks < s.modulus
  }

  /** How far the counts show a time to be behind the one last sampled. */
  function Behind(m: nat, last: nat, time: nat): (b: nat)
    requires m > 0
    ensures b < m
  {
    RemainderBounds(last, m);
    RemainderBounds(time, m);
    RemainderBounds(last % m + m - time % m, m);
    Since(m, last % m, time % m)
  }

  lemma BehindByCounts(m: nat, last: nat, time: nat)
    requires m > 0
    ensures Behind(m, last, time) == if last % m >= time % m then last % m - time % m else last % m + m - time % m
  {
    RemainderBounds(last, m);
    RemainderBounds(time, m);
    var a, b := last % m, time % m;
    if a >= b { SplitUnique(a + m - b, m, 1, a - b); } else { SplitUnique(a + m - b, m, 0, a + m - b); }
  }

  /** The timer is called now exactly if it is a period behind, and is a period less behind then. */
  lemma NowByCounts(s: Daemon, t: Timer, c: nat)
    requires s.modulus > 0 && 0 < Period(s, t) < s.modulus
    ensures var p, b := Period(s, t), Behind(s.modulus, s.last, c);
            && (VerdictFor(s, t, c) == ProcessNow <==> p <= b)
            && (p <= b ==> Behind(s.modulus, s.last, c + p) == b - p)
  {
    hide Period, Behind;
    var m, p := s.modulus, Period(s, t);
    BehindByCounts(m, s.last, c);
    BehindByCounts(m, s.last, c + p);
    Later(m, c, c + p);
    RemainderBounds(c, m);
    RemainderBounds(s.last, m);
    assert Behind(m, s.last, c) == Since(m, s.last % m, c % m) by { SinceIsBehind(m, s.last, c); }
  }

  lemma SinceIsBehind(m: nat, last: nat, time: nat)
    requires m > 0
    ensures last % m < m && time % m < m && Behind(m, last, time) == Since(m, last % m, time % m)
  {
    RemainderBounds(last, m);
    RemainderBounds(time, m);
  }

  /** How much work the commands can still cause. */
  ghost function Work(q: seq<Message>, m: nat, last: nat): nat
    requires m > 0
  {
    if q == [] then 0 else 1 + Behind(m, last, q[0].time) + Work(q[1..], m, last)
  }

  lemma {:induction false} WorkAppend(q: seq<Message>, x: Message, m: nat, last: nat)
    requires m > 0
    ensures Work(q + [x], m, last) == Work(q, m, last) + 1 + Behind(m, last, x.time)
  {
    hide Behind;
    if q == [] {
      assert (q + [x])[1..] == [];
    } else {
      assert (q + [x])[1..] == q[1..] + [x];
      WorkAppend(q[1..], x, m, last);
    }
  }

  lemma CommandProgress(s: Daemon)
    requires InRange(s) && s.queue != []
    ensures var r := ProcessCommand(s);
            && InRange(r) && r.last == s.last && r.modulus == s.modulus
            && Work(r.queue, r.modulus, r.last) < Work(s.queue, s.modulus, s.last)
  {
    hide Taken, InsertTimer, Behind, VerdictFor;
    var m, rest, r := s.queue[0], Taken(s), ProcessCommand(s);
    TakenFrame(s);
    match m.command
    case Start =>
      InsertFrame(rest, m.timer, m.time);
      NowByCounts(rest, m.timer, m.time);
      WorkAppend(s.queue[1..], Message(m.timer, Start, m.time + Period(s, m.timer)), s.modulus, s.last);
      assert forall x :: Period(r, x) == Period(s, x);
    case ChangePeriod(p) =>
      var changed := rest.(period := s.period[m.timer := p]);
      assert m in s.queue;
      InsertFrame(changed, m.timer, s.last);
      assert forall x :: Period(r, x) == if x == m.timer then p else Period(s, x);
    case _ => assert forall x :: Period(r, x) == Period(s, x);
  }

  /** The loop of prvProcessReceivedCommands, at the time last sampled */
  ghost function EmptyQueue(s: Daemon): Daemon
    requires InRange(s)
    decreases if InRange(s) then Work(s.queue, s.modulus, s.last) else 0
  {
    if s.queue == [] then s else CommandProgress(s); EmptyQueue(ProcessCommand(s))
  }

  /** Every START in the queue carries a tick that has been sampled, not a whole turn ago. */
  ghost predicate AllSampled(s: Daemon) {
    forall m :: m in s.queue && m.command == Start ==> m.time <= s.last < m.time + s.modulus
  }

  lemma SampledProgress(s: Daemon)
    requires Sound(s) && InRange(s) && s.queue != [] && AllSampled(s)
    ensures Timely(s) && AllSampled(ProcessCommand(s))
  {
    hide Lists, OfEpoch, Taken, InsertTimer, Period, VerdictFor;
    var m, rest, r := s.queue[0], Taken(s), ProcessCommand(s);
    assert m in s.queue;
    TakenFrame(s);
    match m.command
    case Start =>
      InsertFrame(rest, m.timer, m.time);
      TakenEffect(s);
      InsertTimerSound(rest, m.timer, m.time);
    case ChangePeriod(p) =>
      InsertFrame(rest.(period := s.period[m.timer := p]), m.timer, s.last);
    case _ =>
  }

  /** If all of them do, emptying the queue keeps the lists right and every timer tracked. */
  lemma {:induction false} EmptyQueueTracks(s: Daemon)
    requires Sound(s) && InRange(s) && AllSampled(s)
    ensures Sound(EmptyQueue(s)) && EmptyQueue(s).queue == [] && EmptyQueue(s).last == s.last
    ensures forall t, start, before :: Tracked(s, t, start, before) ==> Tracked(EmptyQueue(s), t, start, before)
    decreases Work(s.queue, s.modulus, s.last)
  {
    hide Lists, OfEpoch, Period, Tracked, AllSampled, ProcessCommand, Timely, Work;
    if s.queue != [] {
      CommandProgress(s);
      SampledProgress(s);
      ProcessCommandKeeps(s);
      EmptyQueueTracks(ProcessCommand(s));
    }
  }

  lemma {:induction false} SwitchLoopInRange(s: Daemon)
    requires Sound(s) && InRange(s)
    ensures InRange(SwitchLoop(s))
    decreases Measure(s.current, s.modulus)
  {
    hide Lists, OfEpoch, Measure, Fires;
    if s.current != [] {
      SwitchRoundFires(s);
      SwitchRoundMeasure(s);
      assert forall x :: Period(SwitchRound(s), x) == Period(s, x);
      SwitchLoopInRange(SwitchRound(s));
    }
  }

  lemma SampleInRange(s: Daemon, now: nat)
    requires Sound(s) && InRange(s)
    ensures InRange(Sample(s, now))
  {
    hide Lists, OfEpoch, SwitchLoop;
    if now % s.modulus < s.last % s.modulus { SwitchLoopInRange(s); }
    assert forall x :: Period(Sample(s, now), x) == Period(if now % s.modulus < s.last % s.modulus then SwitchLoop(s) else s, x);
  }

  /** prvProcessReceivedCommands at time `now` */
  ghost function Received(s: Daemon, now: nat): Daemon
    requires Sound(s) && InRange(s)
  {
    SampleInRange(s, now);
    EmptyQueue(Sample(s, now))
  }

  lemma ReceivedTracks(s: Daemon, now: nat)
    requires Sound(s) && InRange(s) && s.last <= now < s.last + s.modulus && AllSampled(Sample(s, now))
    ensures Sound(Received(s, now)) && Received(s, now).last == now
    ensures forall t, start, before :: Tracked(s, t, start, before) ==> Tracked(Received(s, now), t, start, before)
  {
    hide Lists, OfEpoch, Sample, Tracked, InRange, AllSampled, EmptyQueue;
    SampleInRange(s, now);
    SampleSound(s, now);
    EmptyQueueTracks(Sample(s, now));
    forall t, start, before | Tracked(s, t, start, before)
      ensures Tracked(Received(s, now), t, start, before)
    {
      SampleTracks(s, now, t, start, before);
    }
  }

  // ---- the calls of one START ----

  /** `n` calls, one period apart. */
  ghost function Burst(t: Timer, first: nat, p: nat, n: nat): (b: seq<Firing>)
    ensures |b| == n
    decreases n
  {
    if n == 0 then [] else [Firing(t, first)] + Burst(t, first + p, p, n - 1)
  }

  lemma {:induction false} BurstAt(t: Timer, first: nat, p: nat, n: nat, i: nat)
    requires i < n
    ensures Burst(t, first, p, n)[i] == Firing(t, Nth(first, p, i)) && Nth(first, p, i) >= first
    decreases n
  {
    if i > 0 { BurstAt(t, first + p, p, n - 1, i - 1); }
  }

  /** How many whole periods there are in `b` ticks. */
  ghost function Periods(b: nat, p: nat): nat {
    if p == 0 || b < p then 0 else 1 + Periods(b - p, p)
  }

  lemma {:induction false} PeriodsIs(b: nat, p: nat)
    requires p > 0
    ensures Periods(b, p) == b / p
  {
    if b < p {
      SplitUnique(b, p, 0, b);
    } else {
      PeriodsIs(b - p, p);
      Split(b - p, p);
      Distribute((b - p) / p, 1, p);
      SplitUnique(b, p, (b - p) / p + 1, (b - p) % p);
    }
  }

  /** One START of an auto-reload timer, alone in the queue, calls it once for every period
      that the counts show it to be behind, for successive expiries. */
  lemma {:induction false} StartCalls(s: Daemon, t: Timer, c: nat)
    requires InRange(s) && s.queue == [Message(t, Start, c)] && t in s.autoReload
    ensures EmptyQueue(s).last == s.last
    ensures EmptyQueue(s).log == s.log + Burst(t, c + Period(s, t), Period(s, t), Periods(Behind(s.modulus, s.last, c), Period(s, t)))
    decreases Behind(s.modulus, s.last, c)
  {
    hide ProcessCommand, Behind, InRange, Period;
    StartStep(s, t, c);
    CommandProgress(s);
    var p, b, r := Period(s, t), Behind(s.modulus, s.last, c), ProcessCommand(s);
    if p <= b {
      StartCalls(r, t, c + p);
      BurstOn(s.log, t, c + p, p, Periods(b - p, p));
    } else {
      assert EmptyQueue(r) == r;
    }
  }

  lemma BurstOn(log: seq<Firing>, t: Timer, first: nat, p: nat, n: nat)
    ensures log + Burst(t, first, p, n + 1) == log + [Firing(t, first)] + Burst(t, first + p, p, n)
  {
  }

  lemma StartStep(s: Daemon, t: Timer, c: nat)
    requires InRange(s) && s.queue == [Message(t, Start, c)] && t in s.autoReload
    ensures var p, b, r := Period(s, t), Behind(s.modulus, s.last, c), ProcessCommand(s);
            && 0 < p && s.modulus > 0 && r.modulus == s.modulus && r.last == s.last && r.autoReload == s.autoReload && Period(r, t) == p
            && (if p <= b then r.queue == [Message(t, Start, c + p)] && r.log == s.log + [Firing(t, c + p)]
                               && Behind(s.modulus, s.last, c + p) == b - p
                else r.queue == [] && r.log == s.log)
  {
    hide Taken, InsertTimer, Behind, VerdictFor;
    var rest := Taken(s);
    TakenFrame(s);
    InsertFrame(rest, t, c);
    assert Period(rest, t) == Period(s, t) && s.queue[0] == Message(t, Start, c) && s.queue[1..] == [];
    NowByCounts(rest, t, c);
    var due := c + Period(s, t);
    assert [] + [Message(t, Start, due)] == [Message(t, Start, due)];
  }

  /**
   * A START that carries a tick later than the one sampled, which an interrupt can post while
   * the loop runs: the timer is called at once for every whole period in what is left of the
   * turn, each time before its time.
   */
  lemma EarlyBurst(s: Daemon, t: Timer, c: nat)
    requires InRange(s) && NotEarly(s) && s.queue == [Message(t, Start, c)] && t in s.autoReload
    requires s.last < c <= s.last + s.modulus
    ensures var p, r := Period(s, t), EmptyQueue(s);
            var spurious := (s.last + s.modulus - c) / p;
            && r.log == s.log + Burst(t, c + p, p, spurious)
            && r.last == s.last && (forall i :: |s.log| <= i < |r.log| ==> r.log[i].at > s.last)
            && (NotEarly(r) <==> spurious == 0)
  {
    hide InRange, Behind, NotEarly, Period, EmptyQueue, Burst, Periods;
    LeftOfTurn(s, t, c);
    var p, r, left := Period(s, t), EmptyQueue(s), s.last + s.modulus - c;
    StartCalls(s, t, c);
    PeriodsIs(left, p);
    BurstIsEarly(s, r, t, c + p, p, left / p);
  }

  lemma BurstIsEarly(s: Daemon, r: Daemon, t: Timer, first: nat, p: nat, n: nat)
    requires NotEarly(s) && r.last == s.last < first && r.log == s.log + Burst(t, first, p, n)
    ensures (forall i :: |s.log| <= i < |r.log| ==> r.log[i].at > s.last)
    ensures NotEarly(r) <==> n == 0
  {
    forall i | |s.log| <= i < |r.log|
      ensures r.log[i].at > s.last
    {
      BurstAt(t, first, p, n, i - |s.log|);
    }
    if n > 0 { assert r.log[|s.log|].at > r.last; }
  }

  lemma LeftOfTurn(s: Daemon, t: Timer, c: nat)
    requires InRange(s) && s.last < c <= s.last + s.modulus
    ensures 0 < Period(s, t) && Behind(s.modulus, s.last, c) == s.last + s.modulus - c
  {
    BehindByCounts(s.modulus, s.last, c);
    Turned(s.modulus, s.last, 1);
    Later(s.modulus, c, s.last + s.modulus);
  }

  /** A timer of period 3 is started at 6 while the daemon, which has sampled 5, empties its queue. */
  function HastyDaemon(): Daemon {
    Daemon(16, map[1 := 3], {1}, [], [], [Message(1, Start, 6)], 5, [])
  }

  lemma HastyIsSound()
    ensures Sound(HastyDaemon()) && InRange(HastyDaemon()) && NotEarly(HastyDaemon())
  {
  }

  lemma HastyIs()
    ensures var s := HastyDaemon();
            && s.queue == [Message(1, Start, 6)] && 1 in s.autoReload && s.log == [] && s.last == 5 && s.modulus == 16
            && Period(s, 1) == 3
  {
  }

  /** It is called five times at once, for 9 to 21, at time 5. */
  lemma EarlyBurstExample()
    ensures Sound(HastyDaemon()) && InRange(HastyDaemon()) && NotEarly(HastyDaemon())
    ensures var r := EmptyQueue(HastyDaemon());
            && r.log == [Firing(1, 9), Firing(1, 12), Firing(1, 15), Firing(1, 18), Firing(1, 21)]
            && r.last == 5 && !NotEarly(r)
  {
    hide EmptyQueue, NotEarly, HastyDaemon, InRange, Burst, Sound, Period;
    HastyIsSound();
    HastyIs();
    EarlyBurst(HastyDaemon(), 1, 6);
    FiveCalls();
  }

  lemma FiveCalls()
    ensures Burst(1, 9, 3, 5) == [Firing(1, 9), Firing(1, 12), Firing(1, 15), Firing(1, 18), Firing(1, 21)]
  {
    assert Burst(1, 18, 3, 2) == [Firing(1, 18), Firing(1, 21)];
  }
}
