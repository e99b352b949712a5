/**
 * The loop of the timer task against the clock.  From a bound on how late the daemon is it
 * follows that every START, the daemon's own among them, is looked at in time.
 */
module TimerLoop {
  import opened Arith
  import opened Seqs
  import opened Timeouts
  import opened Timers
  import opened TimerPromises
  import opened TimerCommands

  /** Where prvTimerTask is: before it looks at its list, after that, or emptying its queue. */
  datatype Phase = AtTop | Waited | Receiving

  /** `since`: the time from which the daemon has had something to do, if it has. */
  datatype Loop = Loop(daemon: Daemon, clock: nat, phase: Phase, since: nat)

  datatype Event =
    | Tick
    | Command(message: Message)   // from a task or an interrupt
    | TimerOrBlock | Begin | One  // as in Timers.Step, at the time of the clock
    | Return                      // the queue is empty: back to the top

  /** How late the daemon is at most: with an expiry or the sending of a START, and in
      looking at the clock once it has something to do. */
  datatype Bounds = Bounds(lag: nat, gap: nat)

  /** The daemon looks at the clock within its bounds, and once in every turn of the count. */
  ghost predicate Punctual(l: Loop, b: Bounds) {
    && l.daemon.last <= l.clock < l.daemon.last + l.daemon.modulus
    && (forall e :: e in l.daemon.current ==> l.clock <= e.due + b.lag)
    && (l.phase.AtTop? || l.daemon.queue != [] ==> l.clock <= l.since + b.gap)
  }

  /** While the queue is being emptied no command may carry a tick later than the one sampled. */
  ghost predicate Happens(l: Loop, event: Event, b: Bounds) {
    match event
    case Tick => true
    case Command(m) =>
      && (m.command == Start ==> m.time <= l.clock <= m.time + b.lag && (l.phase.Receiving? ==> m.time <= l.daemon.last))
      && (m.command.ChangePeriod? ==> 0 < m.command.ticks < l.daemon.modulus)
    case TimerOrBlock => l.phase.AtTop? && Punctual(l, b)
    case Begin => l.phase.Waited? && Punctual(l, b)
    case One => l.phase.Receiving? && l.daemon.queue != []
    case Return => l.phase.Receiving? && l.daemon.queue == []
  }

  /** How old a START can be at the time from which the daemon has had to do with it. */
  function Slack(phase: Phase, b: Bounds): nat {
    match phase
    case AtTop => b.lag
    case Waited => b.lag + b.gap
    case Receiving => b.lag + 2 * b.gap
  }

  ghost predicate Fresh(l: Loop, b: Bounds, m: Message) {
    && (m.command == Start ==> m.time <= l.clock && l.since <= m.time + Slack(l.phase, b) && (l.phase.Receiving? ==> m.time <= l.daemon.last))
    && (m.command.ChangePeriod? ==> 0 < m.command.ticks < l.daemon.modulus)
  }

  ghost predicate Inv(l: Loop, b: Bounds) {
    && Sound(l.daemon) && b.lag + 2 * b.gap < l.daemon.modulus
    && l.daemon.last <= l.since <= l.clock && (!l.phase.Waited? ==> l.since == l.daemon.last)
    && forall m :: m in l.daemon.queue ==> Fresh(l, b, m)
  }

  /** What the event is to the daemon. */
  function StepOf(l: Loop, event: Event): Step
    requires !event.Tick? && !event.Return?
  {
    match event
    case Command(m) => Post(m)
    case TimerOrBlock => Step.TimerOrBlock(l.clock)
    case Begin => Step.Begin(l.clock)
    case One => Step.One
  }

  ghost predicate Sane(l: Loop, event: Event) {
    Sound(l.daemon) && (!event.Tick? && !event.Return? ==> Enabled(l.daemon, StepOf(l, event)))
  }

  ghost function Next(l: Loop, event: Event): Loop
    requires Sane(l, event)
  {
    match event
    case Tick => l.(clock := l.clock + 1)
    case Command(m) =>
      l.(daemon := Apply(l.daemon, Post(m)), since := if l.phase.Waited? && l.daemon.queue == [] then l.clock else l.since)
    case TimerOrBlock => l.(daemon := Apply(l.daemon, StepOf(l, event)), phase := Waited, since := l.clock)
    case Begin => l.(daemon := Apply(l.daemon, StepOf(l, event)), phase := Receiving, since := l.clock)
    case One => l.(daemon := Apply(l.daemon, Step.One))
    case Return => l.(phase := AtTop)
  }

  // ---- the daemon's own STARTs ----

  /** The STARTs of a switch are at most as old as the entries of the list. */
  lemma {:induction false} SwitchLoopStarts(s: Daemon, oldest: int)
    requires Sound(s) && forall e :: e in s.current ==> oldest <= e.due
    ensures forall m :: m in SwitchLoop(s).queue && m !in s.queue ==>
              m.command == Start && oldest <= m.time && Epoch(s.modulus, m.time) == Epoch(s.modulus, s.last)
    decreases Measure(s.current, s.modulus)
  {
    hide Lists, OfEpoch, Measure, Epoch, Fires;
    if s.current != [] {
      var r := SwitchRound(s);
      SwitchRoundFires(s);
      SwitchRoundMeasure(s);
      HeadTaken(s);
      forall e | e in r.current
        ensures oldest <= e.due
      {
        RoundEntries(s, e);
      }
      SwitchLoopStarts(r, oldest);
    }
  }

  lemma SampleStarts(s: Daemon, now: nat, oldest: int)
    requires Sound(s) && s.last <= now < s.last + s.modulus && forall e :: e in s.current ==> oldest <= e.due
    ensures forall m :: m in Sample(s, now).queue && m !in s.queue ==> m.command == Start && oldest <= m.time <= now
  {
    hide Lists, OfEpoch, SwitchLoop, Epoch;
    Later(s.modulus, s.last, now);
    if now % s.modulus < s.last % s.modulus {
      SwitchLoopStarts(s, oldest);
      forall m | m in Sample(s, now).queue && m !in s.queue
        ensures m.time <= now
      {
        EarlierEpoch(s.modulus, m.time, now);
      }
    }
  }

  lemma ProcessTimerStarts(s: Daemon, now: nat, oldest: int)
    requires Sound(s) && s.last <= now < s.last + s.modulus && forall e :: e in s.current ==> oldest <= e.due
    ensures forall m :: m in ProcessTimer(s, now).queue && m !in s.queue ==> m.command == Start && oldest <= m.time <= now
  {
    hide Lists, OfEpoch, Sample, InsertTimer, VerdictFor;
    SampleSound(s, now);
    SampleStarts(s, now, oldest);
    var r := Sample(s, now);
    if now % s.modulus >= s.last % s.modulus && s.current != [] && s.current[0].value <= now % s.modulus {
      ProcessExpiredFires(r);
      InsertFrame(r.(current := r.current[1..]), r.current[0].timer, r.current[0].due);
      assert s.current[0] in s.current;
    }
  }

  lemma CommandStarts(s: Daemon)
    requires Sound(s) && Timely(s)
    ensures forall m :: m in ProcessCommand(s).queue && m !in s.queue ==>
              m.command == Start == s.queue[0].command && s.queue[0].time <= m.time <= s.last
  {
    hide Lists, OfEpoch, Taken, InsertTimer, Period, VerdictFor;
    var m, rest := s.queue[0], Taken(s);
    TakenFrame(s);
    match m.command
    case Start =>
      InsertFrame(rest, m.timer, m.time);
      TakenEffect(s);
      InsertTimerSound(rest, m.timer, m.time);
    case ChangePeriod(p) =>
      InsertFrame(rest.(period := s.period[m.timer := p]), m.timer, s.last);
    case _ =>
  }

  // ---- the loop ----

  /** Within the bounds everything the daemon does is enabled: its own STARTs are in time, too. */
  lemma HappensEnabled(l: Loop, event: Event, b: Bounds)
    requires Inv(l, b) && Happens(l, event, b)
    ensures Sane(l, event)
  {
    hide Lists, OfEpoch;
    if event.One? { assert l.daemon.queue[0] in l.daemon.queue && Fresh(l, b, l.daemon.queue[0]); }
  }

  lemma NextKeepsInv(l: Loop, event: Event, b: Bounds)
    requires Inv(l, b) && Happens(l, event, b)
    ensures Sane(l, event) && Inv(Next(l, event), b)
  {
    hide Lists, OfEpoch, ProcessTimer, Sample, ProcessCommand, Period, Timely, Tracked;
    HappensEnabled(l, event, b);
    var s, r := l.daemon, Next(l, event);
    if !event.Tick? && !event.Return? { StepKeeps(s, StepOf(l, event)); }
    match event
    case TimerOrBlock => ProcessTimerTime(s, l.clock); ProcessTimerStarts(s, l.clock, l.clock - b.lag);
    case Begin => SampleSound(s, l.clock); SampleStarts(s, l.clock, l.clock - b.lag);
    case One => CommandStarts(s); CommandFrame(s); assert s.queue[0] in s.queue;
    case _ =>
  }

  lemma CommandFrame(s: Daemon)
    requires s.modulus > 0 && s.queue != []
    ensures ProcessCommand(s).last == s.last && ProcessCommand(s).modulus == s.modulus
  {
    hide Taken, InsertTimer, VerdictFor;
    var m, rest := s.queue[0], Taken(s);
    TakenFrame(s);
    InsertFrame(rest, m.timer, m.time);
    if m.command.ChangePeriod? { InsertFrame(rest.(period := s.period[m.timer := m.command.ticks]), m.timer, s.last); }
  }

  lemma ProcessTimerTime(s: Daemon, now: nat)
    requires Sound(s) && s.last <= now < s.last + s.modulus
    ensures ProcessTimer(s, now).last == now && ProcessTimer(s, now).modulus == s.modulus
  {
    hide Lists, OfEpoch, Sample, InsertTimer, VerdictFor;
    SampleSound(s, now);
    var r := Sample(s, now);
    if now % s.modulus >= s.last % s.modulus && s.current != [] && s.current[0].value <= now % s.modulus {
      InsertFrame(r.(current := r.current[1..]), r.current[0].timer, r.current[0].due);
    }
  }

  ghost predicate RunHappens(l: Loop, events: seq<Event>, b: Bounds)
    requires Inv(l, b)
    decreases |events|
  {
    events != [] ==>
      && Happens(l, events[0], b)
      && (NextKeepsInv(l, events[0], b); RunHappens(Next(l, events[0]), events[1..], b))
  }

  ghost function RunLoop(l: Loop, events: seq<Event>, b: Bounds): Loop
    requires Inv(l, b) && RunHappens(l, events, b)
    decreases |events|
  {
    if events == [] then l else NextKeepsInv(l, events[0], b); RunLoop(Next(l, events[0]), events[1..], b)
  }

  ghost predicate NoCommandFor(events: seq<Event>, t: Timer) {
    forall event :: event in events && event.Command? ==> event.message.timer != t
  }

  lemma NextTracks(l: Loop, event: Event, b: Bounds, t: Timer, start: nat, before: seq<nat>)
    requires Inv(l, b) && Happens(l, event, b) && Sane(l, event) && (event.Command? ==> event.message.timer != t)
    ensures NotEarly(l.daemon) ==> NotEarly(Next(l, event).daemon)
    ensures Tracked(l.daemon, t, start, before) ==> Tracked(Next(l, event).daemon, t, start, before)
  {
    hide Lists, OfEpoch, Apply, Enabled, Tracked, NotEarly, Happens;
    if !event.Tick? && !event.Return? {
      StepKeeps(l.daemon, StepOf(l, event));
      if NotEarly(l.daemon) { StepNotEarly(l.daemon, StepOf(l, event)); }
    }
  }

  /**
   * A daemon that is at most `lag` ticks late with any expiry, with `lag + 2 * gap` less than
   * a turn of the count, calls nobody early and keeps every timer tracked, without any
   * condition on the messages that it sends to itself.
   */
  lemma {:induction false} PunctualLoopTracks(l: Loop, events: seq<Event>, b: Bounds, t: Timer, start: nat, before: seq<nat>)
    requires Inv(l, b) && RunHappens(l, events, b) && NoCommandFor(events, t)
    ensures var r := RunLoop(l, events, b).daemon;
            && Sound(r) && (NotEarly(l.daemon) ==> NotEarly(r))
            && (Tracked(l.daemon, t, start, before) ==> Tracked(r, t, start, before))
    decreases |events|
  {
    hide Inv, Happens, Tracked, NotEarly, Next;
    if events == [] {
      InvSound(l, b);
    } else {
      NextKeepsInv(l, events[0], b);
      NextTracks(l, events[0], b, t, start, before);
      assert events[0] in events && forall event :: event in events[1..] ==> event in events;
      PunctualLoopTracks(Next(l, events[0]), events[1..], b, t, start, before);
    }
  }

  lemma InvSound(l: Loop, b: Bounds)
    requires Inv(l, b)
    ensures Sound(l.daemon)
  {
  }

  /** The loop begins with empty lists and an empty queue. */
  lemma LoopBegins(modulus: nat, clock: nat, b: Bounds)
    requires modulus > 1 && b.lag + 2 * b.gap < modulus
    ensures Inv(Loop(Daemon(modulus, map[], {}, [], [], [], clock, []), clock, AtTop, clock), b)
  {
  }
}
