/**
 * Who is woken at a queue, and how many (queue.c): the first in line, one for each item or
 * slot and no more, and whom the two looks of a blocking call put in line.
 */
module QueueWakeUps {
  import opened Seqs
  import opened QueueSpec
  import opened QueueProtocol
  import opened Tasks

  function Smaller(a: nat, b: nat): nat { if a <= b then a else b }

  /** Steps that change the lines of waiting tasks without waking anybody. */
  predicate Quiet(s: Step) { s.Place? || s.WaiterTimesOut? }

  /** How many tasks the step takes off the lines. */
  ghost function WokenToReceive(w: World, s: Step): int
    requires Enabled(w, s)
  {
    if Quiet(s) then 0 else |w.q.receivers| - |Apply(w, s).q.receivers|
  }

  ghost function WokenToSend(w: World, s: Step): int
    requires Enabled(w, s)
  {
    if Quiet(s) then 0 else |w.q.senders| - |Apply(w, s).q.senders|
  }

  // ---- one step ----

  lemma FirstOfLine(line: seq<Task>)
    ensures First(line) == line[..Smaller(1, |line|)] && Rest(line) == line[Smaller(1, |line|)..]
  {
  }

  lemma OwedIs(lock: int, line: seq<Task>)
    ensures Owed(lock, line) == Smaller(Counted(lock), |line|)
  {
  }

  lemma NoMembers(woken: set<Task>, line: seq<Task>)
    ensures woken + Members(line[..0]) == woken && line[0..] == line && Members([]) == {}
  {
  }

  /** Steps that have nothing to do with those who wait to receive, or to send. */
  lemma ReceiversUntouched(w: World, s: Step)
    requires Enabled(w, s) && !Quiet(s)
    requires !s.TrySend? && !s.TryReceive? && !s.SendInterrupt? && !s.UnlockForReceivers?
    ensures Apply(w, s).q.receivers == w.q.receivers && Apply(w, s).wokenReceivers == w.wokenReceivers
  {
    hide Members, Added, StillRefused, InsertAt;
  }

  lemma SendersUntouched(w: World, s: Step)
    requires Enabled(w, s) && !Quiet(s)
    requires !s.TrySend? && !s.TryReceive? && !s.ReceiveInterrupt? && !s.UnlockForSenders?
    ensures Apply(w, s).q.senders == w.q.senders && Apply(w, s).wokenSenders == w.wokenSenders
  {
    hide Members, Added, StillRefused, InsertAt;
  }

  /** Whoever is woken to receive was first in line; the others keep their places.  The tasks
      on their way are those woken before and not back, and those woken now. */
  lemma FirstReceiversAreWoken(w: World, s: Step)
    requires Enabled(w, s) && !Quiet(s)
    ensures var r, n := Apply(w, s), WokenToReceive(w, s);
            && 0 <= n <= |w.q.receivers| && r.q.receivers == w.q.receivers[n..]
            && r.wokenReceivers == (if s.TryReceive? then w.wokenReceivers - {s.task} else w.wokenReceivers) + Members(w.q.receivers[..n])
  {
    hide Added, Members;
    FirstOfLine(w.q.receivers);
    NoMembers(w.wokenReceivers, w.q.receivers);
    match s
    case TrySend(_, _, _, _) =>
    case TryReceive(t, _, _) => NoMembers(w.wokenReceivers - {t}, w.q.receivers);
    case SendInterrupt(_, _) =>
    case UnlockForReceivers =>
    case _ => ReceiversUntouched(w, s);
  }

  /** And so it is with those who are woken to send. */
  lemma FirstSendersAreWoken(w: World, s: Step)
    requires Enabled(w, s) && !Quiet(s)
    ensures var r, n := Apply(w, s), WokenToSend(w, s);
            && 0 <= n <= |w.q.senders| && r.q.senders == w.q.senders[n..]
            && r.wokenSenders == (if s.TrySend? then w.wokenSenders - {s.task} else w.wokenSenders) + Members(w.q.senders[..n])
  {
    hide Added, Members;
    FirstOfLine(w.q.senders);
    NoMembers(w.wokenSenders, w.q.senders);
    match s
    case TrySend(t, _, _, _) => NoMembers(w.wokenSenders - {t}, w.q.senders);
    case TryReceive(_, _, _) =>
    case ReceiveInterrupt =>
    case UnlockForSenders =>
    case _ => SendersUntouched(w, s);
  }

  /** An unlock wakes as many as were counted, or all that wait; nothing stays counted. */
  lemma UnlockWakes(w: World, s: Step)
    requires Enabled(w, s) && (s.UnlockForReceivers? || s.UnlockForSenders?)
    ensures var r := Apply(w, s);
            && WokenToReceive(w, s) == (if s.UnlockForReceivers? then Smaller(Counted(w.q.txLock), |w.q.receivers|) else 0)
            && WokenToSend(w, s) == (if s.UnlockForSenders? then Smaller(Counted(w.q.rxLock), |w.q.senders|) else 0)
            && r.q.txLock == (if s.UnlockForReceivers? then -1 else w.q.txLock)
            && r.q.rxLock == (if s.UnlockForSenders? then -1 else w.q.rxLock)
  {
    OwedIs(w.q.txLock, w.q.receivers);
    OwedIs(w.q.rxLock, w.q.senders);
  }

  /** A peek that finds an item. */
  predicate PeeksAtOne(w: World, s: Step) { s.TryReceive? && s.justPeeking && w.q.items != [] }

  /** Whom a step wakes, it wakes for an item put in, for one seen and left, or for a wake-up
      that was counted before. */
  lemma WakesAreDue(w: World, s: Step)
    requires Inv(w) && Enabled(w, s)
    ensures var r := Apply(w, s);
            && WokenToReceive(w, s) + Counted(r.q.txLock) <=
               Counted(w.q.txLock) + (|r.sent| - |w.sent|) + (if PeeksAtOne(w, s) then 1 else 0)
            && WokenToSend(w, s) + Counted(r.q.rxLock) <= Counted(w.q.rxLock) + (|r.received| - |w.received|)
  {
    hide Supplied, Justified, Orderly, Members, InsertAt, StillRefused;
    FirstOfLine(w.q.receivers);
    FirstOfLine(w.q.senders);
    OwedIs(w.q.txLock, w.q.receivers);
    OwedIs(w.q.rxLock, w.q.senders);
  }

  // ---- whole runs ----

  ghost function AllWokenToReceive(w: World, steps: seq<Step>): int
    requires RunEnabled(w, steps)
    decreases |steps|
  {
    if steps == [] then 0 else WokenToReceive(w, steps[0]) + AllWokenToReceive(Apply(w, steps[0]), steps[1..])
  }

  ghost function AllWokenToSend(w: World, steps: seq<Step>): int
    requires RunEnabled(w, steps)
    decreases |steps|
  {
    if steps == [] then 0 else WokenToSend(w, steps[0]) + AllWokenToSend(Apply(w, steps[0]), steps[1..])
  }

  ghost function Peeks(w: World, steps: seq<Step>): nat
    requires RunEnabled(w, steps)
    decreases |steps|
  {
    if steps == [] then 0 else (if PeeksAtOne(w, steps[0]) then 1 else 0) + Peeks(Apply(w, steps[0]), steps[1..])
  }

  lemma {:induction false} RunWakesAreDue(w: World, steps: seq<Step>)
    requires Inv(w) && RunEnabled(w, steps)
    ensures var r := Run(w, steps);
            && AllWokenToReceive(w, steps) + Counted(r.q.txLock) <= Counted(w.q.txLock) + |r.sent| - |w.sent| + Peeks(w, steps)
            && AllWokenToSend(w, steps) + Counted(r.q.rxLock) <= Counted(w.q.rxLock) + |r.received| - |w.received|
    decreases |steps|
  {
    hide Inv, Apply, Enabled, PeeksAtOne;
    if steps != [] {
      StepKeeps(w, steps[0]);
      WakesAreDue(w, steps[0]);
      RunWakesAreDue(Apply(w, steps[0]), steps[1..]);
    }
  }

  /**
   * Nobody is woken for nothing.  Over every run from a new queue the tasks woken to receive
   * are at most the items put in and the peeks that found one, and the tasks woken to send
   * are at most the items taken out.
   */
  lemma NoNeedlessWakeUp(length: nat, steps: seq<Step>)
    requires RunEnabled(Fresh(length), steps)
    ensures var r := Run(Fresh(length), steps);
            && AllWokenToReceive(Fresh(length), steps) <= |r.sent| + Peeks(Fresh(length), steps)
            && AllWokenToSend(Fresh(length), steps) <= |r.received|
  {
    hide Run, RunEnabled, AllWokenToReceive, AllWokenToSend, Peeks;
    RunWakesAreDue(Fresh(length), steps);
  }

  // ---- attempts, looks, and lines ----

  /** What an attempt does to the items: a send goes to the end that was asked for if there is
      room, a receive takes the first item and a peek none.  A patient task that is refused
      is going to block; an interrupt is refused and no more. */
  lemma AttemptsAnswer(w: World, s: Step)
    requires Inv(w) && Enabled(w, s) && (s.TrySend? || s.TryReceive? || s.SendInterrupt? || s.ReceiveInterrupt?)
    ensures var r := Apply(w, s);
            if (s.TrySend? || s.SendInterrupt?) && |w.q.items| < w.q.length then
              r.q.items == (if s.position == Front then [s.item] + w.q.items else w.q.items + [s.item]) && r.refused == w.refused
            else if (s.TryReceive? || s.ReceiveInterrupt?) && w.q.items != [] then
              r.q.items == (if s.TryReceive? && s.justPeeking then w.q.items else w.q.items[1..]) && r.refused == w.refused
            else
              && r.q.items == w.q.items
              && r.refused == if (s.TrySend? || s.TryReceive?) && s.patient then w.refused + {s.task} else w.refused
  {
    hide Supplied, Justified, Orderly, Members;
  }

  /** The second look lets the task queue exactly if there is still nothing for it. */
  lemma SecondLookIsExact(w: World)
    requires Inv(w) && Enabled(w, LookAgain)
    ensures var r := Apply(w, LookAgain);
            && r.q == w.q && r.section.In?
            && (Enabled(r, Place(0)) <==> if w.section.side == Receiving then |w.q.items| == 0 else |w.q.items| == w.q.length)
            && (Enabled(r, UnlockForReceivers) <==> !Enabled(r, Place(0)))
  {
    hide Supplied, Justified, Orderly;
  }

  /** Queueing puts the task in its line; a time-out takes the waiter out of its line. */
  lemma LinesChange(w: World, s: Step)
    requires Inv(w) && Enabled(w, s) && Quiet(s)
    ensures var r := Apply(w, s);
            && r.wokenReceivers == w.wokenReceivers && r.wokenSenders == w.wokenSenders && r.q.items == w.q.items
            && (if s.Place? then
                  && Line(r, w.section.side) == InsertAt(Line(w, w.section.side), s.before, w.section.task)
                  && w.section.task in Line(r, w.section.side)
                else
                  && s.task !in r.q.receivers && s.task !in r.q.senders
                  && forall t :: t != s.task ==> (t in r.q.receivers <==> t in w.q.receivers) && (t in r.q.senders <==> t in w.q.senders))
  {
    hide Justified, Orderly, Members;
    if s.Place? {
      InsertMembers(Line(w, w.section.side), s.before, w.section.task);
    } else {
      WithoutMembers(w.q.receivers, s.task);
      WithoutMembers(w.q.senders, s.task);
    }
  }

  /** The queue unlocked, with the wake-ups that were counted handed out. */
  function Handed(q: Queue): Queue {
    q.(txLock := -1, rxLock := -1,
       receivers := q.receivers[Smaller(Counted(q.txLock), |q.receivers|)..],
       senders := q.senders[Smaller(Counted(q.rxLock), |q.senders|)..])
  }

  /** A task whose time is up before its second look unlocks the queue and comes out without
      having queued, only the counted wake-ups being handed out; so does one whose second look finds something. */
  lemma NotQueueingComesOut(w: World, look: Step)
    requires Inv(w) && w.section.In? && w.section.stage == Locked
    requires look == TimeIsUp || (look == LookAgain && !StillRefused(w))
    ensures var steps := [look, UnlockForReceivers, UnlockForSenders, Leave];
            && RunEnabled(w, steps)
            && var r := Run(w, steps);
               r.section.Free? && r.q == Handed(w.q)
  {
    hide Supplied, Justified, Orderly;
    var w1 := Apply(w, look);
    var w2 := Apply(w1, UnlockForReceivers);
    var w3 := Apply(w2, UnlockForSenders);
    var w4 := Apply(w3, Leave);
    OwedIs(w.q.txLock, w.q.receivers);
    OwedIs(w.q.rxLock, w.q.senders);
    assert w4.section.Free? && w4.q == Handed(w.q);
    assert Enabled(w, look) && Enabled(w1, UnlockForReceivers) && Enabled(w2, UnlockForSenders) && Enabled(w3, Leave);
    hide Apply, Enabled;
    RunOne(w3, Leave, w4, []);
    RunOne(w2, UnlockForSenders, w3, [Leave]);
    RunOne(w1, UnlockForReceivers, w2, [UnlockForSenders, Leave]);
    RunOne(w, look, w1, [UnlockForReceivers, UnlockForSenders, Leave]);
  }
}
