/**
 * Time-outs that survive the wrap of the tick count (tasks.c), and the retry loop of a
 * blocking queue call (queue.c) built on them.
 */
module Timeouts {
  import opened Arith

  /** xTimeOutType */
  datatype TimeOut = TimeOut(overflowCount: nat, timeOnEntering: nat)

  /** vTaskSetTimeOutState, at `clock` ticks since the start. */
  function SetTimeOut(modulus: nat, clock: nat): TimeOut
    requires modulus > 0
  {
    TimeOut(clock / modulus, clock % modulus)
  }

  /** Subtraction of tick counts wraps. */
  function Since(modulus: nat, tick: nat, from: nat): nat
    requires modulus > 0 && tick < modulus && from < modulus
  {
    (tick + modulus - from) % modulus
  }

  datatype Answer = Expired | NotYet(timeOut: TimeOut, ticks: nat)

  /** xTaskCheckForTimeOut, with the count of overflows and the tick count of `clock`. */
  function CheckForTimeOut(modulus: nat, clock: nat, timeOut: TimeOut, ticks: nat): Answer
    requires modulus > 0 && timeOut.timeOnEntering < modulus
  {
    var overflows, tick := clock / modulus, clock % modulus;
    if overflows != timeOut.overflowCount && tick >= timeOut.timeOnEntering then Expired
    else if Since(modulus, tick, timeOut.timeOnEntering) < ticks
    then NotYet(SetTimeOut(modulus, clock), ticks - Since(modulus, tick, timeOut.timeOnEntering))
    else Expired
  }

  /** The wrapped difference is the elapsed time, short of whole turns of the count. */
  lemma SinceIsElapsed(m: nat, from: nat, now: nat)
    requires m > 0 && from <= now
    ensures Since(m, now % m, from % m) == (now - from) % m
    ensures from / m <= now / m
    ensures now / m == from / m ==> from % m <= now % m && now - from < m
    ensures now / m == from / m + 1 && now % m < from % m ==> now - from < m
    ensures now / m > from / m && now % m >= from % m ==> now - from >= m
  {
    var a, b, f, n := from / m, now / m, from % m, now % m;
    Split(from, m);
    Split(now, m);
    if b < a { Apart(b, a, m); }
    Distribute(a, b - a, m);
    if n >= f {
      SplitUnique(n + m - f, m, 1, n - f);
      SplitUnique(now - from, m, b - a, n - f);
      if b > a { AtLeast(b - a, m); }
    } else {
      Distribute(1, b - a - 1, m);
      SplitUnique(n + m - f, m, 0, n + m - f);
      SplitUnique(now - from, m, b - a - 1, n + m - f);
    }
  }

  lemma RemainderBounds(x: nat, m: nat)
    requires m > 0
    ensures x % m < m && x % m <= x
    ensures x < m ==> x % m == x
  {
    Split(x, m);
    if x < m { SplitUnique(x, m, 0, x); }
    if x / m > 0 { AtLeast(x / m, m); }
  }

  /** The count has gone round more than once and stands short of the entry value again. */
  ghost predicate TurnMissed(m: nat, from: nat, now: nat, ticks: nat)
    requires m > 0 && from <= now
  {
    now / m > from / m + 1 && now % m < from % m && (now - from) % m < ticks
  }

  /**
   * What the check answers for any two times: it reports expiry if and only if the ticks
   * have elapsed, except when a whole turn of the count went unnoticed.  An answer of
   * not yet takes the elapsed time off the wait.
   */
  lemma CheckIsExact(m: nat, from: nat, now: nat, ticks: nat)
    requires 0 <= ticks < m && from <= now
    ensures var r := CheckForTimeOut(m, now, SetTimeOut(m, from), ticks);
            && (r.Expired? <==> now - from >= ticks && !TurnMissed(m, from, now, ticks))
            && (r.NotYet? ==> r.timeOut == SetTimeOut(m, now) && 0 < r.ticks <= ticks && r.ticks == ticks - (now - from) % m)
  {
    SinceIsElapsed(m, from, now);
    RemainderBounds(now - from, m);
  }

  /** Checks less than a turn of the count apart are exact. */
  lemma CheckWithinTurn(m: nat, from: nat, now: nat, ticks: nat)
    requires 0 <= ticks < m && from <= now < from + m
    ensures CheckForTimeOut(m, now, SetTimeOut(m, from), ticks) ==
            if now - from >= ticks then Expired else NotYet(SetTimeOut(m, now), from + ticks - now)
  {
    CheckIsExact(m, from, now, ticks);
    RemainderBounds(now - from, m);
    Split(from, m);
    Split(now, m);
    if now / m > from / m + 1 {
      Apart(from / m + 1, now / m, m);
      Distribute(from / m, 1, m);
    }
  }

  /** The turn that goes unnoticed is real: with a count of 8, a wait of 6 ticks is not over after 13. */
  lemma TurnMissedExample()
    ensures CheckForTimeOut(8, 7 + 13, SetTimeOut(8, 7), 6) == NotYet(SetTimeOut(8, 20), 1)
  {
  }

  // ---- the retry loop of a blocking call ----

  /** One round of the loop: was there room or data, and when were the two looks at the clock? */
  datatype Round = Round(available: bool, tryTime: nat, checkTime: nat)

  datatype Outcome = Succeeded | Failed | Blocked

  ghost predicate Chronological(rounds: seq<Round>) {
    && (forall i :: 0 <= i < |rounds| ==> rounds[i].tryTime <= rounds[i].checkTime)
    && (forall i, j :: 0 <= i < j < |rounds| ==> rounds[i].checkTime <= rounds[j].tryTime)
  }

  /** No two successive looks at the clock are a whole turn of the count apart. */
  ghost predicate WithinTurns(m: nat, rounds: seq<Round>) {
    && (|rounds| > 0 ==> rounds[0].checkTime < rounds[0].tryTime + m)
    && (forall i :: 0 < i < |rounds| ==> rounds[i].checkTime < rounds[i - 1].checkTime + m)
  }

  /**
   * The loop of xQueueGenericSend and xQueueGenericReceive, as far as time goes.  With a
   * block time of T > 0 the call fails only when T ticks have passed since its first
   * failed attempt, however often it was woken and beaten to it; and if the clock is
   * looked at once in every turn it fails at the first check that finds them passed.
   */
  method BlockingCall(m: nat, ticks: nat, rounds: seq<Round>) returns (outcome: Outcome, at: nat)
    requires 0 <= ticks < m && Chronological(rounds)
    ensures at <= |rounds| && (outcome.Blocked? <==> at == |rounds|)
    ensures forall j :: 0 <= j < at ==> !rounds[j].available
    ensures outcome.Succeeded? <==> at < |rounds| && rounds[at].available
    ensures outcome.Failed? && ticks == 0 ==> at == 0
    ensures outcome.Failed? && ticks > 0 ==> rounds[at].checkTime >= rounds[0].tryTime + ticks
    ensures WithinTurns(m, rounds) && ticks > 0 ==>
              forall j :: 0 <= j < at ==> rounds[j].checkTime < rounds[0].tryTime + ticks
  {
    var entryTimeSet := false;
    var timeOut, remaining := TimeOut(0, 0), ticks;
    ghost var entry: nat := 0;
    at := 0;
    while at < |rounds|
      invariant at <= |rounds|
      invariant forall j :: 0 <= j < at ==> !rounds[j].available
      invariant entryTimeSet <==> at > 0
      invariant ticks == 0 ==> at == 0
      invariant remaining < m && (remaining == 0 ==> ticks == 0)
      invariant at == 0 ==> remaining == ticks
      invariant at > 0 ==> timeOut == SetTimeOut(m, entry) && entry == rounds[at - 1].checkTime
      invariant at > 0 ==> entry + remaining >= rounds[0].tryTime + ticks
      invariant at > 0 && WithinTurns(m, rounds) ==> entry + remaining == rounds[0].tryTime + ticks
      invariant WithinTurns(m, rounds) ==> forall j :: 0 <= j < at ==> rounds[j].checkTime < rounds[0].tryTime + ticks
    {
      if rounds[at].available {
        return Succeeded, at;
      }
      if remaining == 0 {
        return Failed, at;
      }
      if !entryTimeSet {
        entry := rounds[at].tryTime;
        timeOut := SetTimeOut(m, rounds[at].tryTime);
        entryTimeSet := true;
      }
      assert entry <= rounds[at].tryTime <= rounds[at].checkTime by {
        assert at > 0 ==> rounds[at - 1].checkTime <= rounds[at].tryTime;
      }
      CheckIsExact(m, entry, rounds[at].checkTime, remaining);
      RemainderBounds(rounds[at].checkTime - entry, m);
      if WithinTurns(m, rounds) { CheckWithinTurn(m, entry, rounds[at].checkTime, remaining); }
      match CheckForTimeOut(m, rounds[at].checkTime, timeOut, remaining)
      case Expired =>
        return Failed, at;
      case NotYet(next, left) =>
        timeOut, remaining := next, left;
        entry := rounds[at].checkTime;
        at := at + 1;
    }
    outcome := Blocked;
  }
}
