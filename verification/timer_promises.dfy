/**
 * What the tracking of timers means to their users: callbacks come on time, in order and in
 * the number that is due.
 */
module TimerPromises {
  import opened Arith
  import opened Seqs
  import opened Timeouts
  import opened Timers

  // ---- complete ----

  lemma ListedDue(s: Daemon, t: Timer)
    requires Sound(s) && InLists(s, t) != []
    requires s.current == [] || s.last % s.modulus < s.current[0].value
    ensures InLists(s, t)[0] > s.last
  {
    if Listed(s.current, t) {
      var e := s.current[Find(s.current, t)];
      assert e in s.current && s.current[0].value <= e.value;
      SameEpoch(s.modulus, e.due, s.last);
    } else {
      var e := s.overflow[Find(s.overflow, t)];
      assert e in s.overflow;
      EarlierEpoch(s.modulus, s.last, e.due);
    }
  }

  lemma EarlierEpoch(m: nat, a: nat, b: nat)
    requires m > 0 && Epoch(m, a) < Epoch(m, b)
    ensures a < b
  {
    Split(a, m);
    Split(b, m);
    Apart(a / m, b / m, m);
  }

  lemma {:induction false} NthRises(first: nat, p: nat, k: nat, n: nat)
    requires k <= n
    ensures Nth(first, p, k) <= Nth(first, p, n)
    decreases n - k
  {
    if k < n {
      SeriesGrows(first, p, k);
      NthRises(first, p, k + 1, n);
    }
  }

  /** Once the daemon has emptied its queue and finds no expired timer at the head of its
      list, the callback of a tracked timer was called for every expiry up to the time it
      last sampled: an auto-reload timer for each of start + period, start + 2 * period, ... */
  lemma AllDueFired(s: Daemon, t: Timer, start: nat, before: seq<nat>, k: nat)
    requires Sound(s) && Tracked(s, t, start, before) && s.queue == []
    requires s.current == [] || s.last % s.modulus < s.current[0].value
    requires t in s.autoReload || k == 0
    ensures start + (k + 1) * Period(s, t) <= s.last ==>
              |before| + k < |Fired(s.log, t)| && Fired(s.log, t)[|before| + k] == start + (k + 1) * Period(s, t)
  {
    hide Lists, OfEpoch, Dues, Fired, Period;
    var p, f := Period(s, t), |Fired(s.log, t)| - |before|;
    NthIs(start + p, p, k);
    Distribute(k, 1, p);
    if k < f {
      SeriesAt(start + p, p, f, k);
    } else {
      assert Tokens(s, t) == InLists(s, t);
      ListedDue(s, t);
      NthRises(start + p, p, f, k);
    }
  }

  lemma {:induction false} SeriesAt(first: nat, p: nat, n: nat, k: nat)
    requires k < n
    ensures |Series(first, p, n)| == n && Series(first, p, n)[k] == Nth(first, p, k)
    decreases n
  {
    SeriesGrows(first, p, n - 1);
    if k < n - 1 { SeriesAt(first, p, n - 1, k); }
  }

  // ---- never early ----

  ghost predicate NotEarly(s: Daemon) {
    forall i :: 0 <= i < |s.log| ==> s.log[i].at <= s.last
  }

  /** The firings of a switch are those of its epoch. */
  lemma {:induction false} SwitchLoopEpoch(s: Daemon, from: nat)
    requires Sound(s) && from <= |s.log|
    requires forall i :: from <= i < |s.log| ==> Epoch(s.modulus, s.log[i].at) == Epoch(s.modulus, s.last)
    ensures var r := SwitchLoop(s);
            && |r.log| >= |s.log| && r.log[..|s.log|] == s.log
            && forall i :: from <= i < |r.log| ==> Epoch(s.modulus, r.log[i].at) == Epoch(s.modulus, s.last)
    decreases Measure(s.current, s.modulus)
  {
    hide Lists, OfEpoch, Period, Measure, Epoch, Tokens, OnlyStarts, SwitchRound;
    if s.current != [] {
      SwitchRoundFires(s);
      SwitchRoundMeasure(s);
      HeadTaken(s);
      SwitchLoopEpoch(SwitchRound(s), from);
    }
  }

  lemma SampleNotEarly(s: Daemon, now: nat)
    requires Sound(s) && NotEarly(s) && s.last <= now < s.last + s.modulus
    ensures NotEarly(Sample(s, now))
  {
    hide Lists, OfEpoch, Period, Epoch, SwitchLoop;
    Later(s.modulus, s.last, now);
    if now % s.modulus < s.last % s.modulus {
      SwitchLoopEpoch(s, |s.log|);
      var r := SwitchLoop(s);
      forall i | 0 <= i < |r.log|
        ensures r.log[i].at <= now
      {
        if i < |s.log| { assert r.log[i] == r.log[..|s.log|][i]; } else { EarlierEpoch(s.modulus, r.log[i].at, now); }
      }
    }
  }

  /** A sample a whole turn of the count or more after the last leaves the lists to the wrong
      epochs, unless nothing is left in them. */
  lemma SampleExact(s: Daemon, now: nat)
    requires Sound(s) && s.last <= now
    ensures Sound(Sample(s, now)) <==>
            now < s.last + s.modulus || (s.overflow == [] && (now % s.modulus < s.last % s.modulus || s.current == []))
  {
    hide SwitchLoop, Distinct, Rising, Listed, Dues;
    var m, r, wrapped := s.modulus, Sample(s, now), now % s.modulus < s.last % s.modulus;
    if now < s.last + m {
      SampleSound(s, now);
    } else {
      SinceIsElapsed(m, s.last, now);
      if wrapped { SwitchLoopSound(s); }
      assert forall x :: Period(r, x) == Period(s, x);
      assert Epoch(m, now) > Epoch(m, s.last) + (if wrapped then 1 else 0);
      if s.overflow != [] { assert s.overflow[0] in s.overflow; }
      if s.current != [] { assert s.current[0] in s.current; }
      if r.current == [] && r.overflow == [] { EmptyIsSound(r); }
    }
  }

  lemma EmptyIsSound(s: Daemon)
    requires s.modulus > 1 && s.current == [] && s.overflow == [] && forall t :: 0 < Period(s, t) < s.modulus
    ensures Sound(s)
  {
  }

  lemma StepNotEarly(s: Daemon, step: Step)
    requires Sound(s) && NotEarly(s) && Enabled(s, step)
    ensures NotEarly(Apply(s, step))
  {
    hide Lists, OfEpoch, Period, Sample, ProcessExpired, ProcessStart, InsertTimer, Taken, Tokens, OnlyStarts;
    match step
    case Post(m) =>
    case TimerOrBlock(now) =>
      SampleSound(s, now);
      SampleNotEarly(s, now);
      var m := Sample(s, now);
      if now % s.modulus >= s.last % s.modulus && s.current != [] && s.current[0].value <= now % s.modulus {
        ProcessExpiredFires(m);
      }
    case Begin(now) => SampleNotEarly(s, now);
    case One => CommandNotEarly(s);
  }

  lemma CommandNotEarly(s: Daemon)
    requires Sound(s) && NotEarly(s) && Timely(s)
    ensures NotEarly(ProcessCommand(s))
  {
    hide Lists, OfEpoch, Period, InsertTimer, Taken, Tokens, OnlyStarts;
    TakenFrame(s);
    match s.queue[0].command
    case Start =>
      if s.last < s.queue[0].time + Period(s, s.queue[0].timer) {
        StartLists(s);
        assert Untouched(s, ProcessStart(s), 0);
        InsertFrame(Taken(s), s.queue[0].timer, s.queue[0].time);
      } else {
        StartFires(s);
      }
    case ChangePeriod(p) =>
      InsertFrame(Taken(s).(period := s.period[s.queue[0].timer := p]), s.queue[0].timer, s.last);
    case _ =>
  }

  /** No callback is called before the time of its expiry. */
  lemma {:induction false} RunNotEarly(s: Daemon, steps: seq<Step>)
    requires Sound(s) && NotEarly(s) && RunEnabled(s, steps)
    ensures Sound(Run(s, steps)) && NotEarly(Run(s, steps))
    decreases |steps|
  {
    hide NotEarly, Lists, OfEpoch, Period, Enabled, Apply, Tracked;
    if steps != [] {
      StepKeeps(s, steps[0]);
      StepNotEarly(s, steps[0]);
      RunNotEarly(Apply(s, steps[0]), steps[1..]);
    }
  }

  /** A run step by step. */
  lemma RunOn(s: Daemon, step: Step, rest: seq<Step>)
    requires Sound(s) && Enabled(s, step) && Sound(Apply(s, step)) && RunEnabled(Apply(s, step), rest)
    ensures RunEnabled(s, [step] + rest) && Run(s, [step] + rest) == Run(Apply(s, step), rest)
  {
    hide Sound, Enabled, Apply;
    assert ([step] + rest)[1..] == rest;
  }

  // ---- the switch of the lists ----

  /** Calls from position `from` on are in the order of the expiries, and none is after `bound`. */
  ghost predicate InOrder(log: seq<Firing>, from: nat) {
    forall i, j :: from <= i < j < |log| ==> log[i].at <= log[j].at
  }

  ghost predicate UpTo(s: Daemon, from: nat) {
    forall i, e :: from <= i < |s.log| && e in s.current ==> s.log[i].at <= e.due
  }

  lemma HeadIsFirst(s: Daemon, e: Entry)
    requires Sound(s) && s.current != [] && e in s.current
    ensures s.current[0].due <= e.due
  {
    assert s.current[0] in s.current;
    SameEpoch(s.modulus, s.current[0].due, e.due);
  }

  lemma RoundEntries(s: Daemon, e: Entry)
    requires Sound(s) && s.current != [] && e in SwitchRound(s).current
    ensures e in s.current || e.due == s.current[0].due + Period(s, s.current[0].timer)
  {
    var head, v := s.current[0], (s.current[0].value + Period(s, s.current[0].timer)) % s.modulus;
    HeadTaken(s);
    InsertSound(s.current[1..], Entry(head.timer, v, head.due + Period(s, head.timer)));
    assert e in s.current[1..] ==> e in s.current;
  }

  /** The callbacks of a switch are called in the order of the expiries. */
  lemma {:induction false} SwitchInOrder(s: Daemon, from: nat)
    requires Sound(s) && InOrder(s.log, from) && UpTo(s, from)
    ensures InOrder(SwitchLoop(s).log, from)
    decreases Measure(s.current, s.modulus)
  {
    hide Lists, OfEpoch, Measure, Epoch, Tokens, OnlyStarts;
    if s.current != [] {
      var e, r := s.current[0], SwitchRound(s);
      SwitchRoundFires(s);
      SwitchRoundMeasure(s);
      forall i, x | from <= i < |r.log| && x in r.current
        ensures r.log[i].at <= x.due
      {
        RoundEntries(s, x);
        if x in s.current { HeadIsFirst(s, x); }
      }
      assert InOrder(r.log, from);
      SwitchInOrder(r, from);
    }
  }

  /** How often a timer that is due at count `v` is called before the count wraps. */
  function Calls(s: Daemon, t: Timer, v: nat): nat
    requires Period(s, t) > 0
  {
    if t !in s.autoReload then 1 else if v < s.modulus then (s.modulus - 1 - v) / Period(s, t) + 1 else 0
  }

  lemma CallsStep(m: nat, v: nat, p: nat)
    requires 0 < p && v < m
    ensures v + p < m ==> (m - 1 - v) / p == (m - 1 - (v + p)) / p + 1
    ensures v + p >= m ==> (m - 1 - v) / p == 0
  {
    var x := m - 1 - v;
    if v + p < m {
      Split(x - p, p);
      Distribute((x - p) / p, 1, p);
      SplitUnique(x, p, (x - p) / p + 1, (x - p) % p);
    } else {
      SplitUnique(x, p, 0, x);
    }
  }

  /** Does the expiry after `due` come before the count wraps? */
  ghost predicate Stays(s: Daemon, e: Entry)
    requires s.modulus > 0
  {
    e.timer in s.autoReload && Epoch(s.modulus, e.due + Period(s, e.timer)) == Epoch(s.modulus, e.due)
  }

  lemma RestDues(s: Daemon, again: Entry, x: Timer)
    requires Sound(s) && s.current != [] && again.timer == s.current[0].timer
    ensures Dues(s.current[1..], x) == if x != again.timer then Dues(s.current, x) else []
    ensures Dues(Insert(s.current[1..], again), x) == if x != again.timer then Dues(s.current, x) else [again.due]
  {
    hide Lists, OfEpoch, Insert, Epoch;
    HeadTaken(s);
    HeadRemoved(s.current);
    RestInOrder(s);
    RemoveDues(s.current, again.timer, x);
    InsertDues(s.current[1..], again, x);
  }

  /** One round of the switch, in the list ... */
  lemma RoundDues(s: Daemon)
    requires Sound(s) && s.current != []
    ensures var e, r := s.current[0], SwitchRound(s);
            forall x :: Dues(r.current, x) ==
              if x != e.timer then Dues(s.current, x) else if Stays(s, e) then [e.due + Period(s, x)] else []
  {
    hide Lists, OfEpoch, Insert, Epoch, Dues;
    var e, r := s.current[0], SwitchRound(s);
    var p := Period(s, e.timer);
    var again := Entry(e.timer, (e.value + p) % s.modulus, e.due + p);
    HeadTaken(s);
    PeriodOn(s.modulus, e.due, p);
    forall x
      ensures Dues(r.current, x) ==
              if x != e.timer then Dues(s.current, x) else if Stays(s, e) then [e.due + Period(s, x)] else []
    {
      RestDues(s, again, x);
    }
  }

  /** ... and in the queue. */
  lemma RoundSends(s: Daemon)
    requires Sound(s) && s.current != []
    ensures var e := s.current[0];
            SwitchRound(s).queue == if e.timer in s.autoReload && !Stays(s, e) then s.queue + [Message(e.timer, Start, e.due)] else s.queue
  {
    hide Lists, OfEpoch, Insert, Epoch;
    var e := s.current[0];
    HeadTaken(s);
    PeriodOn(s.modulus, e.due, Period(s, e.timer));
  }

  lemma RoundNexts(s: Daemon)
    requires Sound(s) && s.current != []
    ensures var e, r := s.current[0], SwitchRound(s);
            forall x :: Nexts(r.queue, x, Period(s, x)) == Nexts(s.queue, x, Period(s, x)) +
              (if x == e.timer && x in s.autoReload && !Stays(s, e) then [e.due + Period(s, x)] else [])
  {
    hide Lists, OfEpoch, SwitchRound, Nexts, OnlyStarts, Stays;
    RoundSends(s);
    QueuedStart(s, Message(s.current[0].timer, Start, s.current[0].due));
  }

  lemma RestInOrder(s: Daemon)
    requires Sound(s) && s.current != []
    ensures Distinct(s.current) && Rising(s.current) && Distinct(s.current[1..]) && Rising(s.current[1..])
  {
    HeadRemoved(s.current);
    RemoveSound(s.current, s.current[0].timer);
  }

  /** A timer that is not in the list is not concerned. */
  lemma {:induction false} SwitchSkips(s: Daemon, t: Timer)
    requires Sound(s) && Dues(s.current, t) == []
    ensures Fired(SwitchLoop(s).log, t) == Fired(s.log, t)
    ensures Nexts(SwitchLoop(s).queue, t, Period(s, t)) == Nexts(s.queue, t, Period(s, t))
    decreases Measure(s.current, s.modulus)
  {
    hide Lists, OfEpoch, Measure, Epoch, Dues, Nexts, Fired, SwitchRound, OnlyStarts, Tokens;
    if s.current != [] {
      SwitchRoundFires(s);
      SwitchRoundMeasure(s);
      RoundDues(s);
      RoundNexts(s);
      HeadDue(s);
      FiredAppend(s.log, Firing(s.current[0].timer, s.current[0].due), t);
      assert Period(SwitchRound(s), t) == Period(s, t);
      SwitchSkips(SwitchRound(s), t);
    }
  }

  lemma HeadDue(s: Daemon)
    requires Sound(s) && s.current != []
    ensures Dues(s.current, s.current[0].timer) == [s.current[0].due]
  {
    HeadRemoved(s.current);
  }

  /** The head of the list, if it is the timer in question: the last call or one more to come. */
  lemma LastCall(s: Daemon, due: nat, p: nat)
    requires s.modulus > 0 && 0 < p < s.modulus
    ensures var m := s.modulus;
            if Epoch(m, due + p) == Epoch(m, due)
            then (m - 1 - due % m) / p == (m - 1 - (due + p) % m) / p + 1
            else (m - 1 - due % m) / p == 0
  {
    RemainderBounds(due, s.modulus);
    PeriodOn(s.modulus, due, p);
    Later(s.modulus, due, due + p);
    CallsStep(s.modulus, due % s.modulus, p);
  }

  ghost predicate Called(s: Daemon, r: Daemon, t: Timer, due: nat, n: nat) {
    && n > 0 && Fired(r.log, t) == Fired(s.log, t) + Series(due, Period(s, t), n)
    && Nexts(r.queue, t, Period(s, t)) == Nexts(s.queue, t, Period(s, t)) +
         (if t in s.autoReload then [Nth(due, Period(s, t), n - 1) + Period(s, t)] else [])
  }

  /** A call, and more of them a period later. */
  lemma CalledAgain(s: Daemon, m: Daemon, r: Daemon, t: Timer, due: nat, n: nat)
    requires m.period == s.period && m.autoReload == s.autoReload && m.log == s.log + [Firing(t, due)]
    requires Nexts(m.queue, t, Period(s, t)) == Nexts(s.queue, t, Period(s, t))
    requires Called(m, r, t, due + Period(s, t), n)
    ensures Called(s, r, t, due, n + 1)
  {
    hide Fired, Nexts;
    var p := Period(s, t);
    FiredAppend(s.log, Firing(t, due), t);
    assert Period(m, t) == p;
    assert Fired(s.log, t) + [due] + Series(due + p, p, n) == Fired(s.log, t) + ([due] + Series(due + p, p, n));
  }

  /**
   * What prvSwitchTimerLists does for one timer of the current list: a one-shot timer is
   * called once; an auto-reload timer for every expiry up to the wrap of the count, and it
   * leaves one START message that carries the last of them.
   */
  lemma {:induction false} SwitchCalls(s: Daemon, t: Timer, due: nat)
    requires Sound(s) && Dues(s.current, t) == [due]
    ensures Called(s, SwitchLoop(s), t, due, Calls(s, t, due % s.modulus))
    decreases Measure(s.current, s.modulus)
  {
    hide Lists, OfEpoch, Measure, Epoch, Dues, Nexts, Fired, SwitchRound, OnlyStarts, Tokens, Called;
    assert s.current != [] by { NoDues(t); }
    SwitchRoundFires(s);
    SwitchRoundMeasure(s);
    RoundDues(s);
    RoundNexts(s);
    HeadDue(s);
    var h, r, p := s.current[0], SwitchRound(s), Period(s, t);
    assert Period(r, t) == p;
    RemainderBounds(due, s.modulus);
    if h.timer != t {
      SwitchCalls(r, t, due);
      CalledLater(s, r, t, due, Calls(s, t, due % s.modulus));
    } else if Stays(s, h) {
      LastCall(s, due, p);
      RemainderBounds(due + p, s.modulus);
      SwitchCalls(r, t, due + p);
      CalledAgain(s, r, SwitchLoop(s), t, due, Calls(r, t, (due + p) % s.modulus));
    } else {
      LastCall(s, due, p);
      SwitchSkips(r, t);
      CalledOnce(s, r, SwitchLoop(s), t, due);
    }
  }

  lemma CalledLater(s: Daemon, m: Daemon, t: Timer, due: nat, n: nat)
    requires Sound(s) && s.current != [] && m == SwitchRound(s) && Sound(m) && s.current[0].timer != t
    requires m.period == s.period && m.autoReload == s.autoReload
    requires m.log == s.log + [Firing(s.current[0].timer, s.current[0].due)]
    requires Nexts(m.queue, t, Period(s, t)) == Nexts(s.queue, t, Period(s, t))
    requires Called(m, SwitchLoop(m), t, due, n)
    ensures Called(s, SwitchLoop(m), t, due, n)
  {
    hide Fired, Nexts, SwitchLoop, SwitchRound, Lists, OfEpoch;
    FiredAppend(s.log, Firing(s.current[0].timer, s.current[0].due), t);
    assert Period(m, t) == Period(s, t);
  }

  lemma CalledOnce(s: Daemon, m: Daemon, r: Daemon, t: Timer, due: nat)
    requires m.log == s.log + [Firing(t, due)] && Fired(r.log, t) == Fired(m.log, t)
    requires Nexts(r.queue, t, Period(s, t)) == Nexts(m.queue, t, Period(s, t))
    requires Nexts(m.queue, t, Period(s, t)) == Nexts(s.queue, t, Period(s, t)) + (if t in s.autoReload then [due + Period(s, t)] else [])
    ensures Called(s, r, t, due, 1)
  {
    hide Fired, Nexts;
    FiredAppend(s.log, Firing(t, due), t);
    assert Series(due, Period(s, t), 1) == [due] && Nth(due, Period(s, t), 0) == due;
  }

  // ---- starting a running timer anew ----

  lemma RemovedTwice(l: seq<Entry>, t: Timer)
    requires Distinct(l) && Rising(l)
    ensures Remove(Remove(l, t), t) == Remove(l, t)
  {
    RemoveSound(l, t);
  }

  /** A timer taken out of its list is at rest but for the messages on their way. */
  lemma FreshStart(s: Daemon)
    requires Sound(s) && s.queue != [] && s.queue[0].command == Start
    ensures var t := s.queue[0].timer; var u := Unlisted(s, t);
            Sound(u) && ProcessStart(u) == ProcessStart(s)
            && Tokens(u, t) == [s.queue[0].time + Period(s, t)] + Nexts(s.queue[1..], t, Period(s, t))
  {
    hide Remove, OfEpoch, Dues, Listed, InsertTimer, VerdictFor;
    var t := s.queue[0].timer;
    RemovedTwice(s.current, t);
    RemovedTwice(s.overflow, t);
    UnlistedSound(s, t);
    UnlistedDues(s, t);
    assert Taken(Unlisted(s, t)) == Taken(s);
    assert Period(Unlisted(s, t), t) == Period(s, t);
  }

  lemma {:induction false} NoneBehind(q: seq<Message>, t: Timer, p: nat)
    ensures Nexts(q, t, p) == [] <==> forall m :: m in q ==> m.timer != t
  {
    if q != [] { NoneBehind(q[1..], t, p); }
  }

  /** A START or a reset of a timer, running or not, makes it a timer tracked from the time
      of the command, if no message for it waits behind. */
  lemma RestartTracks(s: Daemon)
    requires Sound(s) && Timely(s) && s.queue[0].command == Start
    requires forall i :: 0 < i < |s.queue| ==> s.queue[i].timer != s.queue[0].timer
    ensures var t := s.queue[0].timer;
            Sound(ProcessStart(s)) && Tracked(ProcessStart(s), t, s.queue[0].time, Fired(s.log, t))
  {
    hide ProcessStart, Lists, OfEpoch, Dues, Nexts, Fired, Tokens, Unlisted;
    var t := s.queue[0].timer;
    var u := Unlisted(s, t);
    FreshStart(s);
    NoneBehind(s.queue[1..], t, Period(s, t));
    UnlistedFrame(s, t);
    assert Tracked(u, t, s.queue[0].time, Fired(s.log, t));
    ProcessStartKeeps(u);
  }

  lemma UnlistedFrame(s: Daemon, t: Timer)
    ensures var u := Unlisted(s, t); u == s.(current := u.current, overflow := u.overflow) && Period(u, t) == Period(s, t)
  {
    hide Remove;
  }

  /** And so does a change of its period, from the time at which it is processed. */
  lemma NewPeriodTracks(s: Daemon, p: nat)
    requires Sound(s) && Timely(s) && s.queue[0].command == ChangePeriod(p)
    requires forall i :: 0 < i < |s.queue| ==> s.queue[i].timer != s.queue[0].timer
    ensures var r, t := ProcessCommand(s), s.queue[0].timer;
            Sound(r) && Period(r, t) == p && Tracked(r, t, s.last, Fired(s.log, t))
  {
    hide Lists, OfEpoch, Dues, Listed, InLists, Nexts, Fired, InsertTimer, Taken, VerdictFor;
    var m, rest, r := s.queue[0], Taken(s), ProcessCommand(s);
    TakenEffect(s);
    TakenFrame(s);
    var changed := rest.(period := s.period[m.timer := p]);
    assert forall x :: Period(changed, x) == if x == m.timer then p else Period(s, x);
    PeriodsChanged(rest, changed);
    InsertTimerSound(changed, m.timer, s.last);
    InsertFrame(changed, m.timer, s.last);
    NoneBehind(s.queue[1..], m.timer, p);
    assert Period(r, m.timer) == p;
  }
}
