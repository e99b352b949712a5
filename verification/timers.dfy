/**
 * The timer daemon (timers.c), as values.  Everything the program decides it decides on
 * tick counts, which wrap; next to them the entries and messages carry the absolute times
 * they stand for, which are read by nobody but the proofs.
 */
module Timers {
  import opened Arith
  import opened Seqs
  import opened Timeouts

  type Timer = nat

  /** A timer in a list: the value of its item, and the absolute time of its expiry. */
  datatype Entry = Entry(timer: Timer, value: nat, due: nat)

  datatype Command = Start | Stop | ChangePeriod(ticks: nat) | Delete

  /** xTIMER_MESSAGE, with the absolute time of the tick count that it carries. */
  datatype Message = Message(timer: Timer, command: Command, time: nat)

  /** A call of a callback, for the expiry at time `at`. */
  datatype Firing = Firing(timer: Timer, at: nat)

  datatype Daemon = Daemon(
    modulus: nat,
    period: map<Timer, nat>,
    autoReload: set<Timer>,
    current: seq<Entry>,
    overflow: seq<Entry>,
    queue: seq<Message>,
    last: nat,              // xLastTime is last % modulus
    log: seq<Firing>)

  function Period(s: Daemon, t: Timer): nat { if t in s.period then s.period[t] else 1 }

  function EntryValues(l: seq<Entry>): (vs: seq<nat>)
    ensures |vs| == |l|
  {
    seq(|l|, i requires 0 <= i < |l| => l[i].value)
  }

  /** vListInsert */
  function Insert(l: seq<Entry>, e: Entry): seq<Entry> {
    InsertAt(l, InsertPosition(EntryValues(l), e.value), e)
  }

  /** Position of timer `t` in a list, or the length of the list. */
  function Find(l: seq<Entry>, t: Timer): (p: nat)
    ensures p <= |l| && (p < |l| ==> l[p].timer == t)
    ensures forall i :: 0 <= i < p ==> l[i].timer != t
  {
    if l == [] || l[0].timer == t then 0 else 1 + Find(l[1..], t)
  }

  /** vListRemove, if the timer is in the list. */
  function Remove(l: seq<Entry>, t: Timer): seq<Entry> {
    if Find(l, t) < |l| then RemoveAt(l, Find(l, t)) else l
  }

  datatype Verdict = ProcessNow | IntoCurrent | IntoOverflow

  /** What prvInsertTimerInActiveList decides, from wrapped tick counts alone. */
  function Classify(modulus: nat, nextExpiryTime: nat, timeNow: nat, commandTime: nat, period: nat): Verdict
    requires timeNow < modulus && commandTime < modulus
  {
    if nextExpiryTime <= timeNow then
      if Since(modulus, timeNow, commandTime) >= period then ProcessNow else IntoOverflow
    else if timeNow < commandTime && nextExpiryTime >= commandTime then ProcessNow
    else IntoCurrent
  }

  /** The epoch of a time: how often the count had wrapped. */
  function Epoch(m: nat, x: nat): nat
    requires m > 0
  {
    x / m
  }

  /** The right decision at `n` on a timer of period `p` started at `c`: it is due, or it
      will expire in this epoch, or in the next. */
  predicate Right(m: nat, c: nat, n: nat, p: nat, verdict: Verdict)
    requires m > 0
  {
    match verdict
    case ProcessNow => c + p <= n
    case IntoCurrent => n < c + p && Epoch(m, c + p) == Epoch(m, n)
    case IntoOverflow => n < c + p && Epoch(m, c + p) == Epoch(m, n) + 1
  }

  /** Two times less than a turn apart, in epochs and counts. */
  lemma Later(m: nat, a: nat, b: nat)
    requires m > 0 && a <= b < a + m
    ensures Epoch(m, b) == if b % m >= a % m then Epoch(m, a) else Epoch(m, a) + 1
    ensures b - a == if b % m >= a % m then b % m - a % m else b % m + m - a % m
  {
    Split(a, m);
    Split(b, m);
    var q, r := a / m, a % m;
    if r + (b - a) < m {
      SplitUnique(b, m, q, r + (b - a));
    } else {
      Distribute(q, 1, m);
      SplitUnique(b, m, q + 1, r + (b - a) - m);
    }
  }

  /** A command looked at less than a turn of the count after the tick that it carries. */
  lemma ClassifyWithinTurn(m: nat, c: nat, n: nat, p: nat)
    requires 0 < p < m && c <= n < c + m
    ensures Right(m, c, n, p, Classify(m, (c + p) % m, n % m, c % m, p))
  {
    SinceIsElapsed(m, c, n);
    RemainderBounds(n - c, m);
    Later(m, c, n);
    Later(m, c, c + p);
    if n < c + p { Later(m, n, c + p); }
  }

  /** Whole turns of the count later. */
  lemma Turned(m: nat, x: nat, k: nat)
    requires m > 0
    ensures (x + k * m) % m == x % m && Epoch(m, x + k * m) == Epoch(m, x) + k
  {
    Split(x, m);
    Distribute(x / m, k, m);
    SplitUnique(x + k * m, m, x / m + k, x % m);
  }

  /** The tick of the command has been sampled, and either not a whole turn ago or at a
      moment at which the counts do not hide that the timer is due. */
  predicate InTime(m: nat, c: nat, n: nat, p: nat)
    requires m > 0
  {
    c <= n && (n < c + m || p <= (n - c) % m)
  }

  lemma StaleVerdict(m: nat, c: nat, n: nat, p: nat)
    requires 0 < p < m && c <= n
    ensures Right(m, c, n, p, Classify(m, (c + p) % m, n % m, c % m, p)) <==> (n < c + m || p <= (n - c) % m)
  {
    hide Classify, Epoch;
    var k, seen := (n - c) / m, c + (n - c) % m;
    Split(n - c, m);
    Turned(m, seen, k);
    ClassifyWithinTurn(m, c, seen, p);
    if k > 0 { AtLeast(k, m); }
  }

  lemma EarlyVerdict(m: nat, c: nat, n: nat, p: nat)
    requires 0 < p < m && n < c
    ensures !Right(m, c, n, p, Classify(m, (c + p) % m, n % m, c % m, p))
  {
    hide Classify, Epoch;
    var k := (c - n + m - 1) / m;
    Split(c - n + m - 1, m);
    Turned(m, n, k);
    ClassifyWithinTurn(m, c, n + k * m, p);
  }

  /**
   * For any time `c` of a command and any time `n` at which it is looked at: the decision is
   * the right one if and only if the command is in time.  So it is exact under wrap within a
   * turn, never right on a tick later than the one sampled, and after more than a turn right
   * only where the counts show at least a period.
   */
  lemma ClassifyIsExact(m: nat, c: nat, n: nat, p: nat)
    requires 0 < p < m
    ensures Right(m, c, n, p, Classify(m, (c + p) % m, n % m, c % m, p)) <==> InTime(m, c, n, p)
  {
    hide Right, Classify;
    if c <= n { StaleVerdict(m, c, n, p); } else { EarlyVerdict(m, c, n, p); }
  }

  /** The exception is real: with a count of 16, a timer started at 3 for 15 ticks and looked
      at 7 ticks after its expiry goes to the list of the next epoch. */
  lemma StaleVerdictExample()
    ensures Classify(16, (3 + 15) % 16, 25 % 16, 3, 15) == IntoOverflow && !InTime(16, 3, 25, 15)
  {
  }

  // ---- the operations of the daemon ----

  function VerdictFor(s: Daemon, t: Timer, command: nat): Verdict
    requires s.modulus > 0
  {
    RemainderBounds(s.last, s.modulus);
    RemainderBounds(command, s.modulus);
    Classify(s.modulus, (command + Period(s, t)) % s.modulus, s.last % s.modulus, command % s.modulus, Period(s, t))
  }

  function NewEntry(s: Daemon, t: Timer, command: nat): Entry
    requires s.modulus > 0
  {
    Entry(t, (command + Period(s, t)) % s.modulus, command + Period(s, t))
  }

  /** prvInsertTimerInActiveList at the time last sampled */
  function InsertTimer(s: Daemon, t: Timer, command: nat): Daemon
    requires s.modulus > 0
  {
    var v, e := VerdictFor(s, t, command), NewEntry(s, t, command);
    s.(current := if v == IntoCurrent then Insert(s.current, e) else s.current,
       overflow := if v == IntoOverflow then Insert(s.overflow, e) else s.overflow)
  }

  /** prvProcessExpiredTimer for the head of the current list */
  function ProcessExpired(s: Daemon): Daemon
    requires s.modulus > 0 && s.current != []
  {
    var e := s.current[0];
    var rest := s.(current := s.current[1..]);
    var again := e.timer in s.autoReload;
    var r := if again then InsertTimer(rest, e.timer, e.due) else rest;
    r.(queue := if again && VerdictFor(rest, e.timer, e.due) == ProcessNow then s.queue + [Message(e.timer, Start, e.due)] else s.queue,
       log := s.log + [Firing(e.timer, e.due)])
  }

  /** One round of the loop of prvSwitchTimerLists */
  function SwitchRound(s: Daemon): Daemon
    requires s.modulus > 0 && s.current != []
  {
    var e := s.current[0];
    var again := e.timer in s.autoReload;
    var reloadTime := (e.value + Period(s, e.timer)) % s.modulus;
    s.(current := if again && reloadTime > e.value then Insert(s.current[1..], Entry(e.timer, reloadTime, e.due + Period(s, e.timer)))
                  else s.current[1..],
       queue := if again && reloadTime <= e.value then s.queue + [Message(e.timer, Start, e.due)] else s.queue,
       log := s.log + [Firing(e.timer, e.due)])
  }

  // ---- the invariant ----

  ghost predicate Distinct(l: seq<Entry>) {
    forall i, j :: 0 <= i < j < |l| ==> l[i].timer != l[j].timer
  }

  ghost predicate Rising(l: seq<Entry>) {
    forall i, j :: 0 <= i < j < |l| ==> l[i].value <= l[j].value
  }

  predicate Listed(l: seq<Entry>, t: Timer) { Find(l, t) < |l| }

  /** Entries of one epoch. */
  ghost predicate OfEpoch(m: nat, l: seq<Entry>, epoch: nat)
    requires m > 0
  {
    forall e :: e in l ==> e.value == e.due % m && Epoch(m, e.due) == epoch
  }

  ghost predicate Lists(s: Daemon) {
    && Distinct(s.current) && Distinct(s.overflow) && (forall t :: !(Listed(s.current, t) && Listed(s.overflow, t)))
    && Rising(s.current) && Rising(s.overflow)
  }

  /** The current list is of the epoch last sampled, the other of the next. */
  ghost predicate Sound(s: Daemon) {
    && s.modulus > 1 && (forall t :: 0 < Period(s, t) < s.modulus)
    && Lists(s)
    && OfEpoch(s.modulus, s.current, Epoch(s.modulus, s.last))
    && OfEpoch(s.modulus, s.overflow, Epoch(s.modulus, s.last) + 1)
  }

  // ---- lists ----

  ghost function Dues(l: seq<Entry>, t: Timer): seq<nat> {
    if Listed(l, t) then [l[Find(l, t)].due] else []
  }

  lemma ListedIff(l: seq<Entry>, t: Timer)
    ensures Listed(l, t) <==> exists i :: 0 <= i < |l| && l[i].timer == t
  {
  }

  lemma FindUnique(l: seq<Entry>, i: nat)
    requires Distinct(l) && i < |l|
    ensures Find(l, l[i].timer) == i
  {
  }

  lemma InsertSound(l: seq<Entry>, e: Entry)
    requires Distinct(l) && Rising(l) && !Listed(l, e.timer)
    ensures Distinct(Insert(l, e)) && Rising(Insert(l, e))
    ensures forall x :: x in Insert(l, e) <==> x == e || x in l
  {
    var vs := EntryValues(l);
    var p := InsertPosition(vs, e.value);
    InsertMembers(l, p, e);
    ListedIff(l, e.timer);
    forall i | 0 <= i < |l|
      ensures i < p ==> l[i].value <= e.value
      ensures p <= i ==> e.value < l[i].value
    {
      assert vs[i] == l[i].value;
      if p < |l| { assert vs[p] == l[p].value; }
    }
  }

  lemma InsertDues(l: seq<Entry>, e: Entry, t: Timer)
    requires Distinct(l) && Rising(l) && !Listed(l, e.timer)
    ensures Dues(Insert(l, e), t) == if t == e.timer then [e.due] else Dues(l, t)
    ensures Listed(Insert(l, e), t) <==> t == e.timer || Listed(l, t)
  {
    InsertSound(l, e);
    var r, p := Insert(l, e), InsertPosition(EntryValues(l), e.value);
    if t == e.timer {
      assert r[p] == e;
      FindUnique(r, p);
    } else if Listed(l, t) {
      var i := Find(l, t);
      var j := if i < p then i else i + 1;
      assert r[j] == l[i];
      FindUnique(r, j);
    } else {
      ListedIff(l, t);
      ListedIff(r, t);
    }
  }

  lemma RemoveSound(l: seq<Entry>, x: Timer)
    requires Distinct(l) && Rising(l)
    ensures Distinct(Remove(l, x)) && Rising(Remove(l, x)) && !Listed(Remove(l, x), x)
    ensures forall e :: e in Remove(l, x) ==> e in l
  {
    ListedIff(Remove(l, x), x);
  }

  lemma RemoveDues(l: seq<Entry>, x: Timer, t: Timer)
    requires Distinct(l) && Rising(l)
    ensures Dues(Remove(l, x), t) == if t == x then [] else Dues(l, t)
    ensures Listed(Remove(l, x), t) <==> t != x && Listed(l, t)
  {
    RemoveSound(l, x);
    var r, p := Remove(l, x), Find(l, x);
    if t != x {
      if Listed(l, t) {
        var i := Find(l, t);
        var j := if i < p then i else i - 1;
        assert r[j] == l[i];
        FindUnique(r, j);
      } else {
        ListedIff(l, t);
        ListedIff(r, t);
      }
    }
  }

  lemma HeadRemoved(l: seq<Entry>)
    requires l != []
    ensures l[1..] == Remove(l, l[0].timer) && Find(l, l[0].timer) == 0
  {
    assert RemoveAt(l, 0) == l[1..];
  }

  // ---- where a timer stands ----

  /** The dues that timer `t` has in the two lists. */
  ghost function InLists(s: Daemon, t: Timer): seq<nat> { Dues(s.current, t) + Dues(s.overflow, t) }

  /** A START message in the queue stands for the expiry one period after its time. */
  ghost function Nexts(q: seq<Message>, t: Timer, p: nat): seq<nat> {
    if q == [] then [] else (if q[0].timer == t then [q[0].time + p] else []) + Nexts(q[1..], t, p)
  }

  ghost predicate OnlyStarts(q: seq<Message>, t: Timer) {
    forall m :: m in q && m.timer == t ==> m.command == Start
  }

  /** All expiries that are still to come for timer `t`. */
  ghost function Tokens(s: Daemon, t: Timer): seq<nat> { InLists(s, t) + Nexts(s.queue, t, Period(s, t)) }

  /** The expiries for which the callback of `t` was called, in the order of the calls. */
  ghost function Fired(log: seq<Firing>, t: Timer): seq<nat> {
    if log == [] then []
    else Fired(log[..|log| - 1], t) + (if log[|log| - 1].timer == t then [log[|log| - 1].at] else [])
  }

  lemma {:induction false} NextsAppend(q: seq<Message>, m: Message, t: Timer, p: nat)
    ensures Nexts(q + [m], t, p) == Nexts(q, t, p) + (if m.timer == t then [m.time + p] else [])
  {
    if q == [] {
      assert (q + [m])[1..] == [];
    } else {
      assert (q + [m])[1..] == q[1..] + [m];
      NextsAppend(q[1..], m, t, p);
    }
  }

  lemma FiredAppend(log: seq<Firing>, f: Firing, t: Timer)
    ensures Fired(log + [f], t) == Fired(log, t) + (if f.timer == t then [f.at] else [])
  {
    assert (log + [f])[..|log|] == log;
  }

  // ---- every operation keeps the lists sound ----

  lemma IntoCurrentSound(s: Daemon, e: Entry)
    requires Sound(s) && !Listed(s.current, e.timer) && !Listed(s.overflow, e.timer)
    requires e.value == e.due % s.modulus && Epoch(s.modulus, e.due) == Epoch(s.modulus, s.last)
    ensures var r := s.(current := Insert(s.current, e));
            Sound(r) && forall x :: InLists(r, x) == if x == e.timer then [e.due] else InLists(s, x)
  {
    var r := s.(current := Insert(s.current, e));
    InsertSound(s.current, e);
    forall x
      ensures Dues(r.current, x) == if x == e.timer then [e.due] else Dues(s.current, x)
      ensures Listed(r.current, x) <==> x == e.timer || Listed(s.current, x)
    {
      InsertDues(s.current, e, x);
    }
    hide Insert, Distinct, Rising, Find, Epoch;
    assert forall x :: Period(r, x) == Period(s, x);
  }

  lemma IntoOverflowSound(s: Daemon, e: Entry)
    requires Sound(s) && !Listed(s.current, e.timer) && !Listed(s.overflow, e.timer)
    requires e.value == e.due % s.modulus && Epoch(s.modulus, e.due) == Epoch(s.modulus, s.last) + 1
    ensures var r := s.(overflow := Insert(s.overflow, e));
            Sound(r) && forall x :: InLists(r, x) == if x == e.timer then [e.due] else InLists(s, x)
  {
    var r := s.(overflow := Insert(s.overflow, e));
    InsertSound(s.overflow, e);
    forall x
      ensures Dues(r.overflow, x) == if x == e.timer then [e.due] else Dues(s.overflow, x)
      ensures Listed(r.overflow, x) <==> x == e.timer || Listed(s.overflow, x)
    {
      InsertDues(s.overflow, e, x);
    }
    hide Insert, Distinct, Rising, Find, Epoch;
    assert forall x :: Period(r, x) == Period(s, x);
  }

  lemma InsertTimerSound(s: Daemon, t: Timer, c: nat)
    requires Sound(s) && !Listed(s.current, t) && !Listed(s.overflow, t)
    requires InTime(s.modulus, c, s.last, Period(s, t))
    ensures var r, v := InsertTimer(s, t, c), VerdictFor(s, t, c);
            && Sound(r) && (v == ProcessNow <==> c + Period(s, t) <= s.last)
            && forall x :: InLists(r, x) == if x == t && v != ProcessNow then [c + Period(s, t)] else InLists(s, x)
  {
    hide Insert, Distinct, Rising, Epoch, Listed, InLists;
    ClassifyIsExact(s.modulus, c, s.last, Period(s, t));
    match VerdictFor(s, t, c)
    case ProcessNow => assert InsertTimer(s, t, c) == s;
    case IntoCurrent =>
      assert InsertTimer(s, t, c) == s.(current := Insert(s.current, NewEntry(s, t, c)));
      IntoCurrentSound(s, NewEntry(s, t, c));
    case IntoOverflow =>
      assert InsertTimer(s, t, c) == s.(overflow := Insert(s.overflow, NewEntry(s, t, c)));
      IntoOverflowSound(s, NewEntry(s, t, c));
  }

  /** Timer `t` is taken out of whichever list it is in. */
  function Unlisted(s: Daemon, t: Timer): Daemon {
    s.(current := Remove(s.current, t), overflow := Remove(s.overflow, t))
  }

  lemma UnlistedSound(s: Daemon, t: Timer)
    requires Sound(s)
    ensures Sound(Unlisted(s, t))
  {
    RemoveSound(s.current, t);
    RemoveSound(s.overflow, t);
    forall x
      ensures Listed(Unlisted(s, t).current, x) <==> x != t && Listed(s.current, x)
      ensures Listed(Unlisted(s, t).overflow, x) <==> x != t && Listed(s.overflow, x)
    {
      RemoveDues(s.current, t, x);
      RemoveDues(s.overflow, t, x);
    }
    hide Remove, Distinct, Rising, Listed, Dues;
    assert forall x :: Period(Unlisted(s, t), x) == Period(s, x);
  }

  lemma UnlistedDues(s: Daemon, t: Timer)
    requires Lists(s)
    ensures var r := Unlisted(s, t);
            && !Listed(r.current, t) && !Listed(r.overflow, t)
            && (forall x :: InLists(r, x) == if x == t then [] else InLists(s, x))
  {
    var r := Unlisted(s, t);
    RemoveDues(s.current, t, t);
    RemoveDues(s.overflow, t, t);
    forall x
      ensures InLists(r, x) == if x == t then [] else InLists(s, x)
    {
      RemoveDues(s.current, t, x);
      RemoveDues(s.overflow, t, x);
      hide Remove, Dues, Listed, Distinct, Rising;
    }
  }

  /** The head of the current list, taken out. */
  lemma HeadTaken(s: Daemon)
    requires Sound(s) && s.current != []
    ensures var e, r := s.current[0], s.(current := s.current[1..]);
            && Sound(r) && !Listed(r.current, e.timer) && !Listed(r.overflow, e.timer)
            && Period(s, e.timer) == Period(r, e.timer)
            && InLists(s, e.timer) == [e.due] && InLists(r, e.timer) == []
            && (forall x :: x != e.timer ==> InLists(r, x) == InLists(s, x))
            && e.due % s.modulus == e.value && Epoch(s.modulus, e.due) == Epoch(s.modulus, s.last)
  {
    hide Distinct, Rising;
    var e, r := s.current[0], s.(current := s.current[1..]);
    HeadRemoved(s.current);
    assert e in s.current && Listed(s.current, e.timer) && !Listed(s.overflow, e.timer);
    assert Unlisted(s, e.timer) == r;
    UnlistedSound(s, e.timer);
    UnlistedDues(s, e.timer);
  }

  // ---- a timer that is tracked through its expiries ----

  /** `n` expiries, one period apart. */
  ghost function Series(first: nat, p: nat, n: nat): seq<nat>
    decreases n
  {
    if n == 0 then [] else [first] + Series(first + p, p, n - 1)
  }

  ghost function Nth(first: nat, p: nat, n: nat): nat
    decreases n
  {
    if n == 0 then first else Nth(first + p, p, n - 1)
  }

  lemma {:induction false} SeriesGrows(first: nat, p: nat, n: nat)
    ensures Series(first, p, n + 1) == Series(first, p, n) + [Nth(first, p, n)] && |Series(first, p, n)| == n
    ensures Nth(first, p, n + 1) == Nth(first, p, n) + p
    decreases n
  {
    if n > 0 { SeriesGrows(first + p, p, n - 1); }
  }

  lemma {:induction false} NthIs(first: nat, p: nat, n: nat)
    ensures Nth(first, p, n) == first + n * p
    decreases n
  {
    if n > 0 {
      NthIs(first + p, p, n - 1);
      Distribute(n - 1, 1, p);
    }
  }

  /**
   * Timer `t` was started at `start`, when its callback had been called for `before`.  Since
   * then it was called for start + period, start + 2 * period and so on, once each; and
   * exactly one expiry is to come, the next in turn, unless it was a single shot.
   */
  ghost predicate Tracked(s: Daemon, t: Timer, start: nat, before: seq<nat>) {
    var p, f := Period(s, t), |Fired(s.log, t)| - |before|;
    && f >= 0 && Fired(s.log, t) == before + Series(start + p, p, f)
    && OnlyStarts(s.queue, t)
    && (t !in s.autoReload ==> f <= 1)
    && Tokens(s, t) == if t in s.autoReload || f == 0 then [Nth(start + p, p, f)] else []
  }

  /** Timer `t` is called for its expiry at `due`, and nothing changes for the others. */
  ghost predicate Fires(s: Daemon, r: Daemon, t: Timer, due: nat) {
    && r.period == s.period && r.autoReload == s.autoReload
    && r.log == s.log + [Firing(t, due)]
    && (forall x :: OnlyStarts(s.queue, x) ==> OnlyStarts(r.queue, x))
    && (forall x :: x != t ==> Tokens(r, x) == Tokens(s, x))
    && (Tokens(s, t) == [due] ==> Tokens(r, t) == if t in s.autoReload then [due + Period(s, t)] else [])
  }

  lemma BystanderTracked(s: Daemon, r: Daemon, t: Timer, due: nat, x: Timer, start: nat, before: seq<nat>)
    requires Fires(s, r, t, due) && Tracked(s, x, start, before) && x != t
    ensures Tracked(r, x, start, before)
  {
    hide InLists, Nexts, OnlyStarts, Fired, Tokens, Series, Nth;
    FiredAppend(s.log, Firing(t, due), x);
    assert Period(r, x) == Period(s, x);
  }

  lemma FiredTracked(s: Daemon, r: Daemon, t: Timer, due: nat, start: nat, before: seq<nat>)
    requires Fires(s, r, t, due) && Tokens(s, t) != [] && Tokens(s, t)[0] == due && Tracked(s, t, start, before)
    ensures Tracked(r, t, start, before)
  {
    hide InLists, Nexts, OnlyStarts, Fired;
    FiredAppend(s.log, Firing(t, due), t);
    hide Tokens;
    assert Period(r, t) == Period(s, t);
    var p, f := Period(s, t), |Fired(s.log, t)| - |before|;
    SeriesGrows(start + p, p, f);
    assert Fired(r.log, t) == before + (Series(start + p, p, f) + [due]);
  }

  lemma FiresKeepsTracked(s: Daemon, r: Daemon, t: Timer, due: nat, x: Timer, start: nat, before: seq<nat>)
    requires Fires(s, r, t, due) && Tokens(s, t) != [] && Tokens(s, t)[0] == due && Tracked(s, x, start, before)
    ensures Tracked(r, x, start, before)
  {
    hide Fires, Tracked, Tokens;
    if x == t { FiredTracked(s, r, t, due, start, before); } else { BystanderTracked(s, r, t, due, x, start, before); }
  }

  /** A START message goes to the end of the queue. */
  lemma QueuedStart(s: Daemon, m: Message)
    requires m.command == Start
    ensures forall x :: Nexts(s.queue + [m], x, Period(s, x)) ==
              Nexts(s.queue, x, Period(s, x)) + (if m.timer == x then [m.time + Period(s, x)] else [])
    ensures forall x :: OnlyStarts(s.queue, x) ==> OnlyStarts(s.queue + [m], x)
  {
    forall x
      ensures Nexts(s.queue + [m], x, Period(s, x)) ==
              Nexts(s.queue, x, Period(s, x)) + (if m.timer == x then [m.time + Period(s, x)] else [])
    {
      NextsAppend(s.queue, m, x, Period(s, x));
    }
  }

  lemma ProcessExpiredFires(s: Daemon)
    requires Sound(s) && s.current != [] && s.current[0].value <= s.last % s.modulus
    ensures var e, r := s.current[0], ProcessExpired(s);
            Sound(r) && Fires(s, r, e.timer, e.due) && InLists(s, e.timer) == [e.due] && e.due <= s.last && r.last == s.last
  {
    hide Lists, OfEpoch, Listed, InLists, Fired, VerdictFor, InsertTimer, Nexts, OnlyStarts, Epoch;
    var e, rest, r := s.current[0], s.(current := s.current[1..]), ProcessExpired(s);
    HeadTaken(s);
    SameEpoch(s.modulus, e.due, s.last);
    QueuedStart(s, Message(e.timer, Start, e.due));
    if e.timer in s.autoReload {
      InsertTimerSound(rest, e.timer, e.due);
      InsertFrame(rest, e.timer, e.due);
      SoundIsAboutLists(InsertTimer(rest, e.timer, e.due), r);
    } else {
      SoundIsAboutLists(rest, r);
    }
    assert forall x :: Period(r, x) == Period(s, x);
  }

  /** Two times of one epoch. */
  lemma SameEpoch(m: nat, a: nat, b: nat)
    requires m > 0 && Epoch(m, a) == Epoch(m, b)
    ensures a <= b <==> a % m <= b % m
    ensures b < a + m
  {
    Split(a, m);
    Split(b, m);
  }

  lemma InsertFrame(s: Daemon, t: Timer, c: nat)
    requires s.modulus > 0
    ensures var r := InsertTimer(s, t, c); r == s.(current := r.current, overflow := r.overflow)
  {
    hide Insert, VerdictFor;
  }

  lemma SoundIsAboutLists(s: Daemon, r: Daemon)
    requires Sound(s) && r.modulus == s.modulus && r.period == s.period && r.last == s.last
    requires r.current == s.current && r.overflow == s.overflow
    ensures Sound(r) && forall x :: InLists(r, x) == InLists(s, x)
  {
    hide Distinct, Rising, Listed, OfEpoch, Dues;
    assert forall x :: Period(r, x) == Period(s, x);
  }

  // ---- the switch of the lists ----

  /** One period on, in counts. */
  lemma PeriodOn(m: nat, d: nat, p: nat)
    requires 0 < p < m
    ensures (d % m + p) % m == (d + p) % m
    ensures (d + p) % m > d % m <==> Epoch(m, d + p) == Epoch(m, d)
    ensures Epoch(m, d + p) in {Epoch(m, d), Epoch(m, d) + 1}
    ensures (d + p) % m > d % m ==> (d + p) % m == d % m + p
  {
    Later(m, d, d + p);
    Split(d, m);
    var r := d % m;
    if r + p < m { SplitUnique(r + p, m, 0, r + p); } else { SplitUnique(r + p, m, 1, r + p - m); }
    RemainderBounds(d + p, m);
  }

  lemma SwitchRoundFires(s: Daemon)
    requires Sound(s) && s.current != []
    ensures var e, r := s.current[0], SwitchRound(s);
            && Sound(r) && Fires(s, r, e.timer, e.due) && InLists(s, e.timer) == [e.due]
            && r == s.(current := r.current, queue := r.queue, log := r.log)
  {
    hide Lists, OfEpoch, Listed, InLists, Fired, Insert, Nexts, OnlyStarts;
    var e, rest, r := s.current[0], s.(current := s.current[1..]), SwitchRound(s);
    var p := Period(s, e.timer);
    HeadTaken(s);
    PeriodOn(s.modulus, e.due, p);
    var m, again := Message(e.timer, Start, e.due), Entry(e.timer, (e.value + p) % s.modulus, e.due + p);
    QueuedStart(s, m);
    if e.timer in s.autoReload && again.value > e.value {
      IntoCurrentSound(rest, again);
      SoundIsAboutLists(rest.(current := Insert(rest.current, again)), r);
    } else {
      SoundIsAboutLists(rest, r);
    }
    assert forall x :: Period(r, x) == Period(s, x);
  }

  /** How far the entries of a list are from the end of the epoch. */
  ghost function Measure(l: seq<Entry>, m: nat): nat {
    if l == [] then 0 else (if l[0].value < m then m - l[0].value else 0) + Measure(l[1..], m)
  }

  lemma {:induction false} MeasureInsert(l: seq<Entry>, p: nat, e: Entry, m: nat)
    requires p <= |l| && e.value < m
    ensures Measure(InsertAt(l, p, e), m) == Measure(l, m) + m - e.value
  {
    var r := InsertAt(l, p, e);
    if p == 0 {
      assert r[1..] == l;
    } else {
      assert r[1..] == InsertAt(l[1..], p - 1, e);
      MeasureInsert(l[1..], p - 1, e, m);
    }
  }

  lemma SwitchRoundMeasure(s: Daemon)
    requires Sound(s) && s.current != []
    ensures Measure(SwitchRound(s).current, s.modulus) < Measure(s.current, s.modulus)
  {
    hide Lists, OfEpoch;
    var e := s.current[0];
    HeadTaken(s);
    RemainderBounds(e.due, s.modulus);
    var v := (e.value + Period(s, e.timer)) % s.modulus;
    RemainderBounds(e.value + Period(s, e.timer), s.modulus);
    var again := Entry(e.timer, v, e.due + Period(s, e.timer));
    MeasureInsert(s.current[1..], InsertPosition(EntryValues(s.current[1..]), v), again, s.modulus);
  }

  /** The loop of prvSwitchTimerLists */
  ghost function SwitchLoop(s: Daemon): Daemon
    requires Sound(s)
    decreases Measure(s.current, s.modulus)
  {
    if s.current == [] then s
    else
      SwitchRoundFires(s);
      SwitchRoundMeasure(s);
      SwitchLoop(SwitchRound(s))
  }

  lemma {:induction false} SwitchLoopSound(s: Daemon)
    requires Sound(s)
    ensures var r := SwitchLoop(s);
            && Sound(r) && r.current == []
            && r == s.(current := [], queue := r.queue, log := r.log)
    decreases Measure(s.current, s.modulus)
  {
    hide Lists, OfEpoch, Period, Fires, SwitchRound, Measure;
    if s.current != [] {
      SwitchRoundFires(s);
      SwitchRoundMeasure(s);
      SwitchLoopSound(SwitchRound(s));
    }
  }

  lemma {:induction false} SwitchLoopTracks(s: Daemon, t: Timer, start: nat, before: seq<nat>)
    requires Sound(s) && Tracked(s, t, start, before)
    ensures Tracked(SwitchLoop(s), t, start, before)
    decreases Measure(s.current, s.modulus)
  {
    hide Lists, OfEpoch, Period, Fires, SwitchRound, Measure, Tracked;
    if s.current != [] {
      SwitchRoundFires(s);
      SwitchRoundMeasure(s);
      FiresKeepsTracked(s, SwitchRound(s), s.current[0].timer, s.current[0].due, t, start, before);
      SwitchLoopTracks(SwitchRound(s), t, start, before);
    }
  }

  /** prvSwitchTimerLists */
  ghost function SwitchLists(s: Daemon): Daemon
    requires Sound(s)
  {
    var r := SwitchLoop(s);
    r.(current := r.overflow, overflow := r.current)
  }

  /** prvSampleTimeNow at time `now` */
  ghost function Sample(s: Daemon, now: nat): Daemon
    requires Sound(s)
  {
    if now % s.modulus < s.last % s.modulus then SwitchLists(s).(last := now) else s.(last := now)
  }

  lemma SampleSound(s: Daemon, now: nat)
    requires Sound(s) && s.last <= now < s.last + s.modulus
    ensures var r := Sample(s, now);
            && Sound(r) && r.last == now && r.modulus == s.modulus && r.period == s.period && r.autoReload == s.autoReload
            && (now % s.modulus >= s.last % s.modulus ==> r == s.(last := now))
  {
    hide SwitchLoop, Distinct, Rising, Listed, Dues;
    Later(s.modulus, s.last, now);
    var r := Sample(s, now);
    if now % s.modulus < s.last % s.modulus { SwitchLoopSound(s); }
    assert forall x :: Period(r, x) == Period(s, x);
  }

  lemma SampleTracks(s: Daemon, now: nat, t: Timer, start: nat, before: seq<nat>)
    requires Sound(s) && Tracked(s, t, start, before)
    ensures Tracked(Sample(s, now), t, start, before)
  {
    hide SwitchLoop, Tracked, Lists, OfEpoch;
    if now % s.modulus < s.last % s.modulus {
      SwitchLoopSound(s);
      SwitchLoopTracks(s, t, start, before);
      ExchangeTracks(SwitchLoop(s), now, t, start, before);
    } else {
      TimeTracks(s, now, t, start, before);
    }
  }

  lemma ExchangeTracks(s: Daemon, now: nat, t: Timer, start: nat, before: seq<nat>)
    requires s.current == [] && Tracked(s, t, start, before)
    ensures Tracked(s.(current := s.overflow, overflow := s.current, last := now), t, start, before)
  {
    hide Dues, Nexts, Fired, OnlyStarts, Series, Nth;
    NoDues(t);
  }

  lemma TimeTracks(s: Daemon, now: nat, t: Timer, start: nat, before: seq<nat>)
    requires Tracked(s, t, start, before)
    ensures Tracked(s.(last := now), t, start, before)
  {
    hide Dues, Nexts, Fired, OnlyStarts, Series, Nth;
  }

  lemma NoDues(t: Timer)
    ensures Dues([], t) == []
  {
  }

  // ---- commands ----

  /** The first message is taken from the queue and its timer out of its list. */
  function Taken(s: Daemon): Daemon
    requires s.queue != []
  {
    Unlisted(s, s.queue[0].timer).(queue := s.queue[1..])
  }

  /** The part of prvProcessReceivedCommands for tmrCOMMAND_START */
  function ProcessStart(s: Daemon): Daemon
    requires s.modulus > 0 && s.queue != []
  {
    var m, rest := s.queue[0], Taken(s);
    var due := m.time + Period(s, m.timer);
    var r, now := InsertTimer(rest, m.timer, m.time), VerdictFor(rest, m.timer, m.time) == ProcessNow;
    r.(log := if now then s.log + [Firing(m.timer, due)] else s.log,
       queue := if now && m.timer in s.autoReload then s.queue[1..] + [Message(m.timer, Start, due)] else s.queue[1..])
  }

  /** One round of prvProcessReceivedCommands, at the time last sampled */
  function ProcessCommand(s: Daemon): Daemon
    requires s.modulus > 0 && s.queue != []
  {
    var m := s.queue[0];
    match m.command
    case Start => ProcessStart(s)
    case Stop => Taken(s)
    case ChangePeriod(p) => InsertTimer(Taken(s).(period := s.period[m.timer := p]), m.timer, s.last)
    case Delete => Taken(s)
  }

  lemma TakenEffect(s: Daemon)
    requires Sound(s) && s.queue != []
    ensures var r, t := Taken(s), s.queue[0].timer;
            && Sound(r) && !Listed(r.current, t) && !Listed(r.overflow, t)
            && (forall x :: InLists(r, x) == if x == t then [] else InLists(s, x))
            && (forall x :: x != t ==> Nexts(r.queue, x, Period(s, x)) == Nexts(s.queue, x, Period(s, x)))
            && (forall x :: OnlyStarts(s.queue, x) ==> OnlyStarts(r.queue, x))
            && (forall x :: Period(r, x) == Period(s, x))
            && Nexts(s.queue, t, Period(s, t)) == [s.queue[0].time + Period(s, t)] + Nexts(r.queue, t, Period(s, t))
  {
    hide Lists, OfEpoch, Listed, Dues, Remove;
    var r, t := Taken(s), s.queue[0].timer;
    UnlistedSound(s, t);
    UnlistedDues(s, t);
    SoundIsAboutLists(Unlisted(s, t), r);
    assert forall x :: Period(r, x) == Period(s, x);
  }

  /** The first message is looked at in time. */
  ghost predicate Timely(s: Daemon)
    requires s.modulus > 0
  {
    s.queue != [] && match s.queue[0].command
      case Start => InTime(s.modulus, s.queue[0].time, s.last, Period(s, s.queue[0].timer))
      case ChangePeriod(p) => 0 < p < s.modulus
      case _ => true
  }

  /** Nothing that the tracking of `x` depends on has changed. */
  ghost predicate Untouched(s: Daemon, r: Daemon, x: Timer) {
    && Period(r, x) == Period(s, x) && (x in r.autoReload <==> x in s.autoReload)
    && (OnlyStarts(s.queue, x) ==> OnlyStarts(r.queue, x)) && r.log == s.log
    && (|Tokens(s, x)| <= 1 ==> Tokens(r, x) == Tokens(s, x))
  }

  lemma UntouchedTracked(s: Daemon, r: Daemon, x: Timer, start: nat, before: seq<nat>)
    requires Untouched(s, r, x) && Tracked(s, x, start, before)
    ensures Tracked(r, x, start, before)
  {
    hide Tokens, OnlyStarts, Series, Nth, Fired, Period;
  }

  /** A START whose expiry is still to come puts the timer into a list. */
  lemma StartLists(s: Daemon)
    requires Sound(s) && Timely(s) && s.queue[0].command == Start
    requires s.last < s.queue[0].time + Period(s, s.queue[0].timer)
    ensures Sound(ProcessStart(s)) && forall x :: Untouched(s, ProcessStart(s), x)
  {
    hide Lists, OfEpoch, Listed, InLists, Nexts, OnlyStarts, VerdictFor, InsertTimer, Period, Taken;
    var m, rest, r := s.queue[0], Taken(s), ProcessStart(s);
    TakenEffect(s);
    TakenFrame(s);
    InsertTimerSound(rest, m.timer, m.time);
    InsertFrame(rest, m.timer, m.time);
    SoundIsAboutLists(InsertTimer(rest, m.timer, m.time), r);
    forall x
      ensures Untouched(s, r, x)
    {
      PeriodIsAboutPeriods(s, r, x);
    }
  }

  lemma TakenFrame(s: Daemon)
    requires s.queue != []
    ensures var r := Taken(s); r == s.(queue := s.queue[1..], current := r.current, overflow := r.overflow)
  {
    hide Remove;
  }

  lemma PeriodIsAboutPeriods(s: Daemon, r: Daemon, x: Timer)
    requires r.period == s.period
    ensures Period(r, x) == Period(s, x)
  {
  }

  /** A START whose expiry has passed calls the callback and starts the next period. */
  lemma StartFires(s: Daemon)
    requires Sound(s) && Timely(s) && s.queue[0].command == Start
    requires s.queue[0].time + Period(s, s.queue[0].timer) <= s.last
    ensures var r, t := ProcessStart(s), s.queue[0].timer;
            && Sound(r) && Fires(s, r, t, s.queue[0].time + Period(s, t)) && r.last == s.last
  {
    hide Lists, OfEpoch, Listed, InLists, Nexts, OnlyStarts, VerdictFor, InsertTimer, Period, Taken;
    var m, rest, r := s.queue[0], Taken(s), ProcessStart(s);
    TakenEffect(s);
    TakenFrame(s);
    InsertTimerSound(rest, m.timer, m.time);
    InsertFrame(rest, m.timer, m.time);
    SoundIsAboutLists(InsertTimer(rest, m.timer, m.time), r);
    QueuedStart(rest, Message(m.timer, Start, m.time + Period(s, m.timer)));
    forall x
      ensures Period(r, x) == Period(s, x) == Period(rest, x)
    {
      PeriodIsAboutPeriods(s, r, x);
      PeriodIsAboutPeriods(s, rest, x);
    }
  }

  /** Any other command concerns its own timer only. */
  lemma OtherCommand(s: Daemon)
    requires Sound(s) && Timely(s) && s.queue[0].command != Start
    ensures Sound(ProcessCommand(s))
    ensures forall x :: x != s.queue[0].timer ==> Untouched(s, ProcessCommand(s), x)
  {
    hide Lists, OfEpoch, Listed, InLists, Nexts, OnlyStarts, InsertTimer, Taken;
    var m, rest, r := s.queue[0], Taken(s), ProcessCommand(s);
    TakenEffect(s);
    TakenFrame(s);
    if m.command.ChangePeriod? {
      var changed := rest.(period := s.period[m.timer := m.command.ticks]);
      assert forall x :: Period(changed, x) == if x == m.timer then m.command.ticks else Period(s, x);
      PeriodsChanged(rest, changed);
      InsertTimerSound(changed, m.timer, s.last);
      InsertFrame(changed, m.timer, s.last);
      assert forall x :: Period(r, x) == Period(changed, x);
    }
  }

  lemma PeriodsChanged(s: Daemon, r: Daemon)
    requires Sound(s) && r == s.(period := r.period) && forall x :: 0 < Period(r, x) < r.modulus
    ensures Sound(r) && forall x :: InLists(r, x) == InLists(s, x)
  {
    hide Distinct, Rising, Listed, OfEpoch, Dues, Period;
  }

  // ---- whole runs of the daemon ----

  datatype Step =
    | Post(message: Message)      // a task or an interrupt sends a command
    | TimerOrBlock(now: nat)
    | Begin(now: nat)             // prvProcessReceivedCommands samples the time ...
    | One                         // ... and processes the commands one by one

  /** prvProcessTimerOrBlockTask at time `now`, after prvGetNextExpireTime */
  ghost function ProcessTimer(s: Daemon, now: nat): Daemon
    requires Sound(s) && s.last <= now < s.last + s.modulus
  {
    var listWasEmpty := s.current == [];
    var nextExpireTime := if listWasEmpty then 0 else s.current[0].value;
    var r := Sample(s, now);
    SampleSound(s, now);
    if now % s.modulus >= s.last % s.modulus && !listWasEmpty && nextExpireTime <= now % s.modulus
    then ProcessExpired(r) else r
  }

  /** The daemon looks at the clock at least once in every turn of it, and at every message in time. */
  ghost predicate Enabled(s: Daemon, step: Step)
    requires s.modulus > 0
  {
    match step
    case Post(_) => true
    case TimerOrBlock(now) => s.last <= now < s.last + s.modulus
    case Begin(now) => s.last <= now < s.last + s.modulus
    case One => Timely(s)
  }

  ghost function Apply(s: Daemon, step: Step): Daemon
    requires Sound(s) && Enabled(s, step)
  {
    match step
    case Post(m) => s.(queue := s.queue + [m])
    case TimerOrBlock(now) => ProcessTimer(s, now)
    case Begin(now) => Sample(s, now)
    case One => ProcessCommand(s)
  }

  lemma ProcessTimerKeeps(s: Daemon, now: nat)
    requires Sound(s) && s.last <= now < s.last + s.modulus
    ensures Sound(ProcessTimer(s, now))
    ensures forall t, start, before :: Tracked(s, t, start, before) ==> Tracked(ProcessTimer(s, now), t, start, before)
  {
    hide Sample, ProcessExpired, Tracked, Lists, OfEpoch, Period, Tokens, Fires;
    SampleSound(s, now);
    var m := Sample(s, now);
    var expired := now % s.modulus >= s.last % s.modulus && s.current != [] && s.current[0].value <= now % s.modulus;
    if expired { ProcessExpiredFires(m); }
    forall t, start, before | Tracked(s, t, start, before)
      ensures Tracked(ProcessTimer(s, now), t, start, before)
    {
      SampleTracks(s, now, t, start, before);
      if expired {
        FirstToken(m, m.current[0].timer, m.current[0].due);
        FiresKeepsTracked(m, ProcessExpired(m), m.current[0].timer, m.current[0].due, t, start, before);
      }
    }
  }

  lemma FirstToken(s: Daemon, t: Timer, due: nat)
    requires InLists(s, t) == [due]
    ensures Tokens(s, t) != [] && Tokens(s, t)[0] == due
  {
  }

  lemma ProcessStartKeeps(s: Daemon)
    requires Sound(s) && Timely(s) && s.queue[0].command == Start
    ensures Sound(ProcessStart(s))
    ensures forall t, start, before :: Tracked(s, t, start, before) ==> Tracked(ProcessStart(s), t, start, before)
  {
    hide ProcessStart, Tracked, Lists, OfEpoch, Period, Fires, Untouched;
    var m := s.queue[0];
    var due := m.time + Period(s, m.timer);
    if s.last < due { StartLists(s); } else { StartFires(s); }
    forall t, start, before | Tracked(s, t, start, before)
      ensures Tracked(ProcessStart(s), t, start, before)
    {
      if s.last < due {
        UntouchedTracked(s, ProcessStart(s), t, start, before);
      } else if t == m.timer {
        LoneStart(s, t, start, before);
        FiresKeepsTracked(s, ProcessStart(s), t, due, t, start, before);
      } else {
        BystanderTracked(s, ProcessStart(s), m.timer, due, t, start, before);
      }
    }
  }

  /** The START message of a tracked timer is its only token. */
  lemma LoneStart(s: Daemon, t: Timer, start: nat, before: seq<nat>)
    requires s.queue != [] && s.queue[0].timer == t && Tracked(s, t, start, before)
    ensures Tokens(s, t) == [s.queue[0].time + Period(s, t)]
  {
    hide OnlyStarts, Fired, Series, Nth, Dues;
    assert |Tokens(s, t)| <= 1;
    assert Nexts(s.queue, t, Period(s, t))[0] == s.queue[0].time + Period(s, t);
  }

  lemma ProcessCommandKeeps(s: Daemon)
    requires Sound(s) && Timely(s)
    ensures Sound(ProcessCommand(s))
    ensures forall t, start, before :: Tracked(s, t, start, before) ==> Tracked(ProcessCommand(s), t, start, before)
  {
    hide ProcessStart, Tracked, Lists, OfEpoch, Period, Untouched;
    if s.queue[0].command == Start {
      ProcessStartKeeps(s);
    } else {
      OtherCommand(s);
      forall t, start, before | Tracked(s, t, start, before)
        ensures Tracked(ProcessCommand(s), t, start, before)
      {
        assert OnlyStarts(s.queue, t) by { TrackedStarts(s, t, start, before); }
        assert s.queue[0] in s.queue;
        UntouchedTracked(s, ProcessCommand(s), t, start, before);
      }
    }
  }

  lemma TrackedStarts(s: Daemon, t: Timer, start: nat, before: seq<nat>)
    requires Tracked(s, t, start, before)
    ensures OnlyStarts(s.queue, t)
  {
  }

  lemma PostKeeps(s: Daemon, m: Message, t: Timer, start: nat, before: seq<nat>)
    requires Tracked(s, t, start, before) && m.timer != t
    ensures Tracked(s.(queue := s.queue + [m]), t, start, before)
  {
    hide Series, Nth, Fired, Dues;
    NextsAppend(s.queue, m, t, Period(s, t));
  }

  lemma StepKeeps(s: Daemon, step: Step)
    requires Sound(s) && Enabled(s, step)
    ensures Sound(Apply(s, step))
    ensures forall t, start, before :: Tracked(s, t, start, before) && (step.Post? ==> step.message.timer != t)
              ==> Tracked(Apply(s, step), t, start, before)
  {
    hide Tracked, Lists, OfEpoch, Period, ProcessTimer, ProcessCommand, Sample;
    match step
    case Post(m) =>
      SoundIsAboutLists(s, Apply(s, step));
      forall t, start, before | Tracked(s, t, start, before) && m.timer != t
        ensures Tracked(Apply(s, step), t, start, before)
      {
        PostKeeps(s, m, t, start, before);
      }
    case TimerOrBlock(now) => ProcessTimerKeeps(s, now);
    case Begin(now) =>
      SampleSound(s, now);
      forall t, start, before | Tracked(s, t, start, before)
        ensures Tracked(Apply(s, step), t, start, before)
      {
        SampleTracks(s, now, t, start, before);
      }
    case One => ProcessCommandKeeps(s);
  }

  ghost predicate RunEnabled(s: Daemon, steps: seq<Step>)
    requires Sound(s)
    decreases |steps|
  {
    steps != [] ==> Enabled(s, steps[0]) && (StepKeeps(s, steps[0]); RunEnabled(Apply(s, steps[0]), steps[1..]))
  }

  ghost function Run(s: Daemon, steps: seq<Step>): Daemon
    requires Sound(s) && RunEnabled(s, steps)
    decreases |steps|
  {
    if steps == [] then s else StepKeeps(s, steps[0]); Run(Apply(s, steps[0]), steps[1..])
  }

  ghost predicate LeftAlone(steps: seq<Step>, t: Timer) {
    forall step :: step in steps ==> (step.Post? ==> step.message.timer != t)
  }

  /**
   * Auto-reload timers fire exactly once for every expiry, without drift or loss, however
   * late the daemon runs and whichever way the expiry is processed: over a run in which
   * nobody sends commands for a tracked timer it stays tracked.
   */
  lemma {:induction false} RunTracks(s: Daemon, steps: seq<Step>, t: Timer, start: nat, before: seq<nat>)
    requires Sound(s) && RunEnabled(s, steps) && Tracked(s, t, start, before) && LeftAlone(steps, t)
    ensures Sound(Run(s, steps)) && Tracked(Run(s, steps), t, start, before)
    decreases |steps|
  {
    hide Tracked, Lists, OfEpoch, Period, Enabled, Apply;
    if steps != [] {
      StepKeeps(s, steps[0]);
      assert steps[0] in steps && forall step :: step in steps[1..] ==> step in steps;
      RunTracks(Apply(s, steps[0]), steps[1..], t, start, before);
    }
  }

  /** Tracking begins when a timer at rest is started. */
  lemma StartTracks(s: Daemon, t: Timer, time: nat)
    requires Sound(s) && Tokens(s, t) == [] && OnlyStarts(s.queue, t)
    ensures Tracked(Apply(s, Post(Message(t, Start, time))), t, time, Fired(s.log, t))
  {
    hide Lists, OfEpoch, Dues, Fired;
    NextsAppend(s.queue, Message(t, Start, time), t, Period(s, t));
  }
}
