/**
 * The timer daemon in place: the static variables of timers.c and the functions that
 * update them, tied to the operations on values.
 */
module TimerDaemon {
  import opened Arith
  import opened Seqs
  import opened Timeouts
  import opened Timers
  import opened TimerCommands
  import opened TimerCatchUp

  class TimerService {
    const modulus: nat
    var period: map<Timer, nat>
    var autoReload: set<Timer>
    var current: seq<Entry>       // pxCurrentTimerList
    var overflow: seq<Entry>      // pxOverflowTimerList
    var queue: seq<Message>       // xTimerQueue
    var lastTime: nat             // xLastTime
    var log: seq<Firing>          // the callbacks called
    var last: nat                 // the absolute time last sampled, which no decision reads

    ghost function View(): Daemon
      reads this
    {
      Daemon(modulus, period, autoReload, current, overflow, queue, last, log)
    }

    ghost predicate Valid()
      reads this
    {
      Sound(View()) && lastTime == last % modulus
    }

    function PeriodOf(t: Timer): nat
      reads this`period
    {
      if t in period then period[t] else 1
    }

    constructor (modulus: nat)
      requires modulus > 1
      ensures Valid() && View() == Daemon(modulus, map[], {}, [], [], [], 0, [])
    {
      this.modulus := modulus;
      period, autoReload, current, overflow := map[], {}, [], [];
      queue, lastTime, log, last := [], 0, [], 0;
    }

    /** prvInsertTimerInActiveList.  `due` is the absolute time that `nextExpiryTime` stands for. */
    method InsertTimerInActiveList(t: Timer, nextExpiryTime: nat, timeNow: nat, commandTime: nat, due: nat, ghost command: nat)
      returns (processTimerNow: bool)
      requires modulus > 0 && timeNow == last % modulus && commandTime == command % modulus
      requires due == command + PeriodOf(t) && nextExpiryTime == due % modulus
      modifies this`current, this`overflow
      ensures View() == InsertTimer(old(View()), t, command)
      ensures processTimerNow <==> VerdictFor(old(View()), t, command) == ProcessNow
    {
      hide Insert;
      RemainderBounds(last, modulus);
      RemainderBounds(command, modulus);
      processTimerNow := false;
      var e := Entry(t, nextExpiryTime, due);
      if nextExpiryTime <= timeNow {
        if Since(modulus, timeNow, commandTime) >= PeriodOf(t) {
          processTimerNow := true;
        } else {
          overflow := Insert(overflow, e);
        }
      } else {
        if timeNow < commandTime && nextExpiryTime >= commandTime {
          processTimerNow := true;
        } else {
          current := Insert(current, e);
        }
      }
    }

    /** The callback of `t` is called for its expiry at `at`. */
    method CallBack(t: Timer, at: nat)
      modifies this`log
      ensures log == old(log) + [Firing(t, at)]
    {
      log := log + [Firing(t, at)];
    }

    /** prvProcessExpiredTimer */
    method ProcessExpiredTimer(nextExpireTime: nat, timeNow: nat)
      requires Valid() && current != [] && nextExpireTime == current[0].value && timeNow == last % modulus
      modifies this`current, this`overflow, this`queue, this`log
      ensures View() == ProcessExpired(old(View()))
    {
      hide Lists, OfEpoch, Insert, InsertTimer, VerdictFor;
      HeadTaken(View());
      var e := current[0];
      current := current[1..];
      if e.timer in autoReload {
        var p := PeriodOf(e.timer);
        PeriodOn(modulus, e.due, p);
        var late := InsertTimerInActiveList(e.timer, (nextExpireTime + p) % modulus, timeNow, nextExpireTime, e.due + p, e.due);
        InsertFrame(old(View()).(current := old(current)[1..]), e.timer, e.due);
        if late {
          queue := queue + [Message(e.timer, Start, e.due)];
        }
      }
      CallBack(e.timer, e.due);
    }

    /** prvSwitchTimerLists */
    method SwitchTimerLists()
      requires Valid()
      modifies this`current, this`overflow, this`queue, this`log
      ensures View() == SwitchLists(old(View()))
    {
      hide Lists, OfEpoch, Insert, SwitchRound, Measure;
      while current != []
        invariant Sound(View()) && SwitchLoop(View()) == SwitchLoop(old(View()))
        invariant overflow == old(overflow)
        decreases Measure(current, modulus)
      {
        SwitchRoundFires(View());
        SwitchRoundMeasure(View());
        ExpireAll();
      }
      assert View() == SwitchLoop(old(View()));
      current, overflow := overflow, current;
    }

    /** One round of the loop. */
    method ExpireAll()
      requires modulus > 0 && current != []
      modifies this`current, this`queue, this`log
      ensures View() == SwitchRound(old(View()))
    {
      hide Insert;
      var e := current[0];
      var nextExpireTime := e.value;
      current := current[1..];
      CallBack(e.timer, e.due);
      if e.timer in autoReload {
        var reloadTime := (nextExpireTime + PeriodOf(e.timer)) % modulus;
        if reloadTime > nextExpireTime {
          current := Insert(current, Entry(e.timer, reloadTime, e.due + PeriodOf(e.timer)));
        } else {
          queue := queue + [Message(e.timer, Start, e.due)];
        }
      }
    }

    /** prvSampleTimeNow; `now` is the absolute time. */
    method SampleTimeNow(now: nat) returns (timeNow: nat, switched: bool)
      requires Valid() && last <= now < last + modulus
      modifies this`current, this`overflow, this`queue, this`log, this`lastTime, this`last
      ensures Valid() && View() == Sample(old(View()), now)
      ensures timeNow == last % modulus && last == now && (switched <==> timeNow < old(last) % modulus)
    {
      hide Lists, OfEpoch, SwitchLists, Sound;
      SampleSound(View(), now);
      timeNow := now % modulus;
      switched := timeNow < lastTime;
      if switched {
        SwitchTimerLists();
      }
      lastTime, last := timeNow, now;
    }

    /** prvProcessTimerOrBlockTask, with what prvGetNextExpireTime says before it. */
    method ProcessTimerOrBlockTask(now: nat)
      requires Valid() && last <= now < last + modulus
      modifies this`current, this`overflow, this`queue, this`log, this`lastTime, this`last
      ensures Valid() && View() == ProcessTimer(old(View()), now)
      ensures now % modulus >= old(last) % modulus ==>
                log == if old(current) != [] && old(current)[0].due <= now
                       then old(log) + [Firing(old(current)[0].timer, old(current)[0].due)] else old(log)
    {
      hide Lists, OfEpoch, Sample, ProcessExpired;
      if now % modulus >= last % modulus { LookCallsTheHead(View(), now); }
      SampleSound(View(), now);
      var listWasEmpty := current == [];
      var nextExpireTime := if listWasEmpty then 0 else current[0].value;
      var timeNow, switched := SampleTimeNow(now);
      if !switched {
        if !listWasEmpty && nextExpireTime <= timeNow {
          ProcessExpiredFires(View());
          ProcessExpiredTimer(nextExpireTime, timeNow);
        }
      }
    }

    /** The timer of the first message leaves its list. */
    method TakeMessage() returns (m: Message)
      requires queue != []
      modifies this`current, this`overflow, this`queue
      ensures m == old(queue)[0] && View() == Taken(old(View()))
    {
      m := queue[0];
      queue := queue[1..];
      current := Remove(current, m.timer);
      overflow := Remove(overflow, m.timer);
    }

    /** tmrCOMMAND_START: the callback is called at once if the expiry has passed. */
    method StartTimer(timeNow: nat)
      requires InRange(View()) && queue != [] && queue[0].command == Start && timeNow == last % modulus
      modifies this`current, this`overflow, this`queue, this`log
      ensures View() == ProcessStart(old(View()))
    {
      hide Lists, OfEpoch, InsertTimer, VerdictFor, Taken;
      TakenFrame(View());
      var m := TakeMessage();
      var value, p := m.time % modulus, PeriodOf(m.timer);
      PeriodOn(modulus, m.time, p);
      var late := InsertTimerInActiveList(m.timer, (value + p) % modulus, timeNow, value, m.time + p, m.time);
      InsertFrame(Taken(old(View())), m.timer, m.time);
      if late {
        CallBack(m.timer, m.time + p);
        if m.timer in autoReload {
          queue := queue + [Message(m.timer, Start, m.time + p)];
        }
      }
    }

    /** tmrCOMMAND_CHANGE_PERIOD */
    method SetPeriod(timeNow: nat, ticks: nat)
      requires InRange(View()) && queue != [] && queue[0].command == ChangePeriod(ticks) && timeNow == last % modulus
      modifies this`current, this`overflow, this`queue, this`period
      ensures View() == ProcessCommand(old(View()))
    {
      hide Lists, OfEpoch, InsertTimer, VerdictFor, Taken;
      TakenFrame(View());
      var m := TakeMessage();
      period := period[m.timer := ticks];
      PeriodOn(modulus, last, ticks);
      var late := InsertTimerInActiveList(m.timer, (timeNow + ticks) % modulus, timeNow, timeNow, last + ticks, last);
    }

    /** prvProcessReceivedCommands: the loop empties any queue; and if every START in it
        carries a tick sampled less than a turn ago, every tracked timer stays tracked. */
    method ProcessReceivedCommands(now: nat)
      requires Valid() && InRange(View()) && last <= now < last + modulus
      modifies this
      ensures queue == [] && View() == Received(old(View()), now) && lastTime == last % modulus
      ensures AllSampled(Sample(old(View()), now)) ==>
                Valid() && forall t, start, before :: Tracked(old(View()), t, start, before) ==> Tracked(View(), t, start, before)
    {
      hide Lists, OfEpoch, Sample, Tracked, Sound, InRange, AllSampled, Work, ProcessCommand;
      ghost var s := View();
      if AllSampled(Sample(s, now)) { ReceivedTracks(s, now); }
      SampleInRange(s, now);
      var timeNow, switched := SampleTimeNow(now);
      while queue != []
        invariant InRange(View()) && timeNow == last % modulus == lastTime
        invariant EmptyQueue(View()) == Received(s, now)
        decreases Work(queue, modulus, last)
      {
        CommandProgress(View());
        ProcessMessage(timeNow);
      }
    }

    /** One round of the loop. */
    method ProcessMessage(timeNow: nat)
      requires InRange(View()) && queue != [] && timeNow == last % modulus
      modifies this`current, this`overflow, this`queue, this`log, this`period
      ensures View() == ProcessCommand(old(View()))
    {
      hide Lists, OfEpoch, InsertTimer, ProcessStart, Taken;
      match queue[0].command
      case Start => StartTimer(timeNow);
      case Stop => var m := TakeMessage();
      case ChangePeriod(ticks) => SetPeriod(timeNow, ticks);
      case Delete => var m := TakeMessage();
    }
  }
}
