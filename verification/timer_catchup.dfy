/**
 * The daemon calls what is due: one pass of its loop at time `now` calls the head of the
 * list exactly if it is due, and after as many passes as were due nothing is.
 */
module TimerCatchUp {
  import opened Arith
  import opened Seqs
  import opened Timeouts
  import opened Timers
  import opened TimerPromises
  import opened TimerCommands
  import opened TimerLoop

  // ---- one look ----

  /** If the lists are not switched by it, a look at the list makes exactly one call if the
      head of the list is due, for the head, and none otherwise. */
  lemma LookCallsTheHead(s: Daemon, now: nat)
    requires Sound(s) && s.last <= now < s.last + s.modulus && now % s.modulus >= s.last % s.modulus
    ensures ProcessTimer(s, now).log ==
            if s.current != [] && s.current[0].due <= now then s.log + [Firing(s.current[0].timer, s.current[0].due)] else s.log
  {
    hide Lists, OfEpoch, Sample, InsertTimer, VerdictFor;
    SampleSound(s, now);
    if s.current != [] { HeadDueByCounts(s, now); }
  }

  lemma HeadDueByCounts(s: Daemon, now: nat)
    requires Sound(s) && s.last <= now < s.last + s.modulus && now % s.modulus >= s.last % s.modulus && s.current != []
    ensures s.current[0].value <= now % s.modulus <==> s.current[0].due <= now
  {
    hide Lists;
    Later(s.modulus, s.last, now);
    assert s.current[0] in s.current;
    SameEpoch(s.modulus, s.current[0].due, now);
  }

  // ---- how much is due ----

  /** How many entries of a list are due at `now`. */
  function DueCount(l: seq<Entry>, now: nat): nat {
    if l == [] then 0 else (if l[0].due <= now then 1 else 0) + DueCount(l[1..], now)
  }

  lemma {:induction false} DueInsert(l: seq<Entry>, p: nat, e: Entry, now: nat)
    requires p <= |l| && e.due > now
    ensures DueCount(InsertAt(l, p, e), now) == DueCount(l, now)
  {
    var r := InsertAt(l, p, e);
    if p == 0 {
      assert r[1..] == l;
    } else {
      assert r[1..] == InsertAt(l[1..], p - 1, e);
      DueInsert(l[1..], p - 1, e, now);
    }
  }

  lemma {:induction false} DueRemove(l: seq<Entry>, p: nat, now: nat)
    requires p < |l|
    ensures DueCount(RemoveAt(l, p), now) <= DueCount(l, now)
  {
    var r := RemoveAt(l, p);
    if p == 0 {
      assert r == l[1..];
    } else {
      assert r[1..] == RemoveAt(l[1..], p - 1);
      DueRemove(l[1..], p - 1, now);
    }
  }

  /** A timer that is not called now goes into a list for later. */
  lemma InsertedLater(s: Daemon, t: Timer, c: nat)
    requires Sound(s) && InTime(s.modulus, c, s.last, Period(s, t))
    ensures DueCount(InsertTimer(s, t, c).current, s.last) == DueCount(s.current, s.last)
  {
    hide Epoch, InTime;
    ClassifyIsExact(s.modulus, c, s.last, Period(s, t));
    var e := NewEntry(s, t, c);
    if VerdictFor(s, t, c) == IntoCurrent { DueInsert(s.current, InsertPosition(EntryValues(s.current), e.value), e, s.last); }
  }

  lemma TakenDue(s: Daemon)
    requires s.queue != []
    ensures DueCount(Taken(s).current, s.last) <= DueCount(s.current, s.last)
  {
    var t := s.queue[0].timer;
    if Find(s.current, t) < |s.current| { DueRemove(s.current, Find(s.current, t), s.last); }
  }

  /** No command brings anything into the list that is due already. */
  lemma CommandAddsNothingDue(s: Daemon)
    requires Sound(s) && Timely(s)
    ensures DueCount(ProcessCommand(s).current, s.last) <= DueCount(s.current, s.last)
  {
    hide Lists, OfEpoch, Taken, InsertTimer, VerdictFor, DueCount;
    var m, rest := s.queue[0], Taken(s);
    TakenEffect(s);
    TakenFrame(s);
    TakenDue(s);
    match m.command
    case Start =>
      InsertedLater(rest, m.timer, m.time);
    case ChangePeriod(p) =>
      var changed := rest.(period := s.period[m.timer := p]);
      assert forall x :: Period(changed, x) == if x == m.timer then p else Period(s, x);
      PeriodsChanged(rest, changed);
      InsertedLater(changed, m.timer, s.last);
    case _ =>
  }

  lemma {:induction false} EmptyQueueAddsNothingDue(s: Daemon)
    requires Sound(s) && InRange(s) && AllSampled(s)
    ensures DueCount(EmptyQueue(s).current, s.last) <= DueCount(s.current, s.last)
    decreases Work(s.queue, s.modulus, s.last)
  {
    hide Lists, OfEpoch, Period, Tracked, AllSampled, ProcessCommand, Timely, Work, DueCount;
    if s.queue != [] {
      CommandProgress(s);
      SampledProgress(s);
      ProcessCommandKeeps(s);
      CommandAddsNothingDue(s);
      EmptyQueueAddsNothingDue(ProcessCommand(s));
    }
  }

  /** A look takes a head that is due off the list and puts nothing due in its place. */
  lemma ExpiredLessDue(s: Daemon)
    requires Sound(s) && s.current != [] && s.current[0].due <= s.last
    ensures DueCount(ProcessExpired(s).current, s.last) < DueCount(s.current, s.last)
  {
    hide Lists, OfEpoch, InsertTimer, VerdictFor;
    var e, rest := s.current[0], s.(current := s.current[1..]);
    HeadTaken(s);
    SameEpoch(s.modulus, e.due, s.last);
    InsertedLater(rest, e.timer, e.due);
  }

  // ---- passes of the loop ----

  /** What the loop needs to be in time at `now`: no expiry that it finds in its list and no
      START in its queue is a whole turn old, and no START is from later. */
  ghost predicate InTouch(s: Daemon, now: nat) {
    && Sound(s) && InRange(s) && s.last <= now < s.last + s.modulus
    && (forall e :: e in s.current ==> now < e.due + s.modulus)
    && (forall m :: m in s.queue && m.command == Start ==> m.time <= now < m.time + s.modulus)
  }

  /** One pass of the loop of prvTimerTask, with the clock standing at `now`. */
  ghost function Pass(s: Daemon, now: nat): Daemon
    requires InTouch(s, now)
  {
    LookInTouch(s, now);
    Received(ProcessTimer(s, now), now)
  }

  lemma ProcessTimerInRange(s: Daemon, now: nat)
    requires Sound(s) && InRange(s) && s.last <= now < s.last + s.modulus
    ensures InRange(ProcessTimer(s, now))
  {
    hide Lists, OfEpoch, Sample, InsertTimer, VerdictFor;
    SampleSound(s, now);
    SampleInRange(s, now);
    var m, r := Sample(s, now), ProcessTimer(s, now);
    if r != m {
      InsertFrame(m.(current := m.current[1..]), m.current[0].timer, m.current[0].due);
      assert forall x :: Period(r, x) == Period(m, x);
    }
  }

  lemma LookInTouch(s: Daemon, now: nat)
    requires InTouch(s, now)
    ensures var r := ProcessTimer(s, now);
            Sound(r) && InRange(r) && r.last == now && r.modulus == s.modulus && AllSampled(r)
  {
    hide Lists, OfEpoch, ProcessTimer, Tracked, InRange, Period;
    ProcessTimerKeeps(s, now);
    ProcessTimerInRange(s, now);
    ProcessTimerTime(s, now);
    ProcessTimerStarts(s, now, now - s.modulus + 1);
  }

  lemma SampleAgain(s: Daemon)
    requires Sound(s)
    ensures Sample(s, s.last) == s
  {
    hide Lists, OfEpoch;
  }

  lemma {:induction false} NothingDue(l: seq<Entry>, now: nat)
    requires forall e :: e in l ==> e.due > now
    ensures DueCount(l, now) == 0
  {
    if l != [] { NothingDue(l[1..], now); }
  }

  /** A second look at the same time: less is due after it, if anything was. */
  lemma LookLessDue(s: Daemon)
    requires Sound(s)
    ensures var n := DueCount(ProcessTimer(s, s.last).current, s.last); n == 0 || n < DueCount(s.current, s.last)
  {
    hide Lists, OfEpoch, Sample, ProcessExpired, DueCount;
    SampleAgain(s);
    if s.current == [] {
      NothingDue(s.current, s.last);
    } else {
      HeadDueByCounts(s, s.last);
      if s.current[0].due <= s.last {
        ExpiredLessDue(s);
      } else {
        forall e | e in s.current
          ensures e.due > s.last
        {
          HeadIsFirst(s, e);
        }
        NothingDue(s.current, s.last);
      }
    }
  }

  lemma {:induction false} EmptyQueueInRange(s: Daemon)
    requires InRange(s)
    ensures InRange(EmptyQueue(s)) && EmptyQueue(s).modulus == s.modulus
    decreases Work(s.queue, s.modulus, s.last)
  {
    hide ProcessCommand, Work, Period;
    if s.queue != [] {
      CommandProgress(s);
      EmptyQueueInRange(ProcessCommand(s));
    }
  }

  /** With its queue empty and the time just sampled the daemon is in touch. */
  lemma QuietInTouch(s: Daemon)
    requires Sound(s) && InRange(s) && s.queue == []
    ensures InTouch(s, s.last)
  {
    hide Lists, Epoch;
    forall e | e in s.current
      ensures s.last < e.due + s.modulus
    {
      SameEpoch(s.modulus, e.due, s.last);
    }
  }

  // ---- the kind of a tracked timer ----

  lemma CommandKeepsKind(s: Daemon, t: Timer)
    requires s.modulus > 0 && s.queue != [] && OnlyStarts(s.queue, t)
    ensures ProcessCommand(s).autoReload == s.autoReload && Period(ProcessCommand(s), t) == Period(s, t)
  {
    hide Taken, InsertTimer, VerdictFor;
    var m, rest := s.queue[0], Taken(s);
    assert m in s.queue;
    TakenFrame(s);
    InsertFrame(rest, m.timer, m.time);
    if m.command.ChangePeriod? { InsertFrame(rest.(period := s.period[m.timer := m.command.ticks]), m.timer, s.last); }
  }

  lemma {:induction false} EmptyQueueKeepsKind(s: Daemon, t: Timer, start: nat, before: seq<nat>)
    requires Sound(s) && InRange(s) && AllSampled(s) && Tracked(s, t, start, before)
    ensures EmptyQueue(s).autoReload == s.autoReload && Period(EmptyQueue(s), t) == Period(s, t)
    decreases Work(s.queue, s.modulus, s.last)
  {
    hide Lists, OfEpoch, Period, Tracked, AllSampled, ProcessCommand, Timely, Work;
    if s.queue != [] {
      CommandProgress(s);
      SampledProgress(s);
      ProcessCommandKeeps(s);
      TrackedStarts(s, t, start, before);
      CommandKeepsKind(s, t);
      EmptyQueueKeepsKind(ProcessCommand(s), t, start, before);
    }
  }

  lemma LookKeepsKind(s: Daemon, now: nat)
    requires Sound(s) && s.last <= now < s.last + s.modulus
    ensures ProcessTimer(s, now).autoReload == s.autoReload && ProcessTimer(s, now).period == s.period
  {
    hide Lists, OfEpoch, Sample, InsertTimer, VerdictFor;
    SampleSound(s, now);
    var m := Sample(s, now);
    if m.current != [] { InsertFrame(m.(current := m.current[1..]), m.current[0].timer, m.current[0].due); }
  }

  lemma PassKeepsKind(s: Daemon, now: nat, t: Timer, start: nat, before: seq<nat>)
    requires InTouch(s, now) && Tracked(s, t, start, before)
    ensures Pass(s, now).autoReload == s.autoReload && Period(Pass(s, now), t) == Period(s, t)
    ensures Tracked(Pass(s, now), t, start, before)
  {
    hide Lists, OfEpoch, ProcessTimer, Tracked, InRange, EmptyQueue, Sample, AllSampled;
    LookInTouch(s, now);
    var m := ProcessTimer(s, now);
    SampleAgain(m);
    ProcessTimerKeeps(s, now);
    LookKeepsKind(s, now);
    EmptyQueueKeepsKind(m, t, start, before);
    EmptyQueueTracks(m);
  }

  // ---- catching up ----

  /** After a pass the queue is empty; and if the time had been sampled before it, less is due
      in the list than before, if anything was. */
  lemma PassEffect(s: Daemon, now: nat)
    requires InTouch(s, now)
    ensures var r := Pass(s, now);
            && InTouch(r, now) && r.last == now && r.queue == []
            && (s.last == now ==> DueCount(r.current, now) == 0 || DueCount(r.current, now) < DueCount(s.current, now))
  {
    hide Lists, OfEpoch, ProcessTimer, Tracked, InRange, Period, EmptyQueue, DueCount, Sample, AllSampled;
    LookInTouch(s, now);
    var m := ProcessTimer(s, now);
    SampleAgain(m);
    EmptyQueueTracks(m);
    EmptyQueueAddsNothingDue(m);
    EmptyQueueInRange(m);
    QuietInTouch(EmptyQueue(m));
    if s.last == now { LookLessDue(s); }
  }

  lemma InTouchIsSound(s: Daemon, now: nat)
    requires InTouch(s, now)
    ensures Sound(s)
  {
  }

  ghost function Passes(s: Daemon, now: nat, n: nat): Daemon
    requires InTouch(s, now)
    decreases n
  {
    if n == 0 then s else PassEffect(s, now); Passes(Pass(s, now), now, n - 1)
  }

  /** With the time sampled, as many passes as entries are due leave nothing due. */
  lemma {:induction false} PassesLeaveNothingDue(s: Daemon, now: nat, n: nat)
    requires InTouch(s, now) && s.last == now && s.queue == [] && DueCount(s.current, now) <= n
    ensures var r := Passes(s, now, n);
            InTouch(r, now) && r.last == now && r.queue == [] && (r.current == [] || now < r.current[0].due)
    decreases n
  {
    hide InTouch, Pass;
    if n > 0 {
      PassEffect(s, now);
      PassesLeaveNothingDue(Pass(s, now), now, n - 1);
    }
  }

  lemma {:induction false} PassesTrack(s: Daemon, now: nat, n: nat, t: Timer, start: nat, before: seq<nat>)
    requires InTouch(s, now) && Tracked(s, t, start, before)
    ensures var r := Passes(s, now, n);
            Tracked(r, t, start, before) && r.autoReload == s.autoReload && Period(r, t) == Period(s, t)
    decreases n
  {
    hide InTouch, Pass, Tracked, Period;
    if n > 0 {
      PassEffect(s, now);
      PassKeepsKind(s, now, t, start, before);
      PassesTrack(Pass(s, now), now, n - 1, t, start, before);
    }
  }

  /** What is not due has not been reached by the count. */
  lemma HeadNotReached(s: Daemon)
    requires Sound(s) && (s.current == [] || s.last < s.current[0].due)
    ensures s.current == [] || s.last % s.modulus < s.current[0].value
  {
    hide Lists;
    if s.current != [] {
      assert s.current[0] in s.current;
      SameEpoch(s.modulus, s.current[0].due, s.last);
    }
  }

  /** Expiry `k`, counted from 0, of a timer started at `start`. */
  ghost function Expiry(s: Daemon, t: Timer, start: nat, k: nat): nat { start + (k + 1) * Period(s, t) }

  /**
   * The daemon catches up.  From any state with its lists in order, and with nothing a whole
   * turn of the count late, there is a number of passes of the loop after which every expiry
   * of a tracked timer up to the time of the clock has been called: an auto-reload timer's
   * for start + period, start + 2 * period, ...
   */
  lemma EverythingDueIsCalled(s: Daemon, now: nat, t: Timer, start: nat, before: seq<nat>) returns (n: nat)
    requires InTouch(s, now) && Tracked(s, t, start, before)
    ensures var r := Passes(s, now, n);
            && Tracked(r, t, start, before) && r.queue == [] && (r.current == [] || now < r.current[0].due)
            && forall k: nat :: (t in s.autoReload || k == 0) && Expiry(s, t, start, k) <= now ==>
                 |before| + k < |Fired(r.log, t)| && Fired(r.log, t)[|before| + k] == Expiry(s, t, start, k)
  {
    hide InTouch, Pass, Tracked, Period, DueCount, Fired, Sound;
    PassEffect(s, now);
    var m := Pass(s, now);
    n := 1 + DueCount(m.current, now);
    PassesLeaveNothingDue(m, now, n - 1);
    PassesTrack(s, now, n, t, start, before);
    var r := Passes(s, now, n);
    InTouchIsSound(r, now);
    HeadNotReached(r);
    forall k: nat | (t in s.autoReload || k == 0) && Expiry(s, t, start, k) <= now
      ensures |before| + k < |Fired(r.log, t)| && Fired(r.log, t)[|before| + k] == Expiry(s, t, start, k)
    {
      AllDueFired(r, t, start, before, k);
    }
  }
}
