/**
 * What the event callbacks do to a socket over whole runs, and that an event reaches every
 * call of select that waits for it (sockets.c).
 */
module SelectEvents {
  import opened Seqs
  import opened Select

  /** How many callbacks with event `e` there were for socket `k`. */
  function Count(steps: seq<Step>, k: nat, e: Event): nat {
    if steps == [] then 0
    else (if steps[0].Callback? && steps[0].socket == k && steps[0].event == e then 1 else 0) + Count(steps[1..], k, e)
  }

  predicate IsSend(s: Step, k: nat) {
    s.Callback? && s.socket == k && (s.event == SendPlus || s.event == SendMinus)
  }

  /** Position `i` is that of the last send event for socket `k`. */
  ghost predicate LastSend(steps: seq<Step>, k: nat, i: nat) {
    i < |steps| && IsSend(steps[i], k) && forall j :: i < j < |steps| ==> !IsSend(steps[j], k)
  }

  predicate IsLeftover(s: Step, k: nat) { s.Leftover? && s.socket == k }

  ghost predicate LastLeftover(steps: seq<Step>, k: nat, i: nat) {
    i < |steps| && IsLeftover(steps[i], k) && forall j :: i < j < |steps| ==> !IsLeftover(steps[j], k)
  }

  /** One step, for the socket of a callback and for the others. */
  lemma StepOnSocket(w: World, s: Step, k: nat)
    requires Enabled(w, s) && k < |w.sockets|
    ensures var a, r := w.sockets[k], Apply(w, s);
            && |r.sockets| == |w.sockets| && r.sockets[k].active == a.active
            && r.sockets[k].rcvevent == a.rcvevent + Count([s], k, RcvPlus) - Count([s], k, RcvMinus)
            && r.sockets[k].sendevent == (if IsSend(s, k) then s.event == SendPlus else a.sendevent)
            && r.sockets[k].lastData == (if IsLeftover(s, k) then s.lastData else a.lastData)
  {
    hide ReadyToRead, ReadyToWrite, FirstMatch, Position;
    assert [s][1..] == [];
  }

  lemma CountOn(steps: seq<Step>, k: nat, e: Event)
    requires steps != []
    ensures Count(steps, k, e) == Count([steps[0]], k, e) + Count(steps[1..], k, e)
  {
    assert [steps[0]][1..] == [];
  }

  /**
   * Over every run: a socket has the receive events that it began with, plus those counted
   * up, less those counted down.
   */
  lemma {:induction false} ReceiveEventsAreCounted(w: World, steps: seq<Step>, k: nat)
    requires RunEnabled(w, steps) && k < |w.sockets|
    ensures var r := Run(w, steps);
            && |r.sockets| == |w.sockets| && r.sockets[k].active == w.sockets[k].active
            && r.sockets[k].rcvevent == w.sockets[k].rcvevent + Count(steps, k, RcvPlus) - Count(steps, k, RcvMinus)
    decreases |steps|
  {
    hide Apply, Enabled;
    if steps != [] {
      StepOnSocket(w, steps[0], k);
      CountOn(steps, k, RcvPlus);
      CountOn(steps, k, RcvMinus);
      ReceiveEventsAreCounted(Apply(w, steps[0]), steps[1..], k);
    }
  }

  /** And its send event is what the last of them says, as its rest of data is. */
  lemma {:induction false} LastSendCounts(w: World, steps: seq<Step>, k: nat)
    requires RunEnabled(w, steps) && k < |w.sockets|
    ensures var r := Run(w, steps);
            && |r.sockets| == |w.sockets|
            && (forall i: nat :: LastSend(steps, k, i) ==> r.sockets[k].sendevent == (steps[i].event == SendPlus))
            && ((forall i :: 0 <= i < |steps| ==> !IsSend(steps[i], k)) ==> r.sockets[k].sendevent == w.sockets[k].sendevent)
    decreases |steps|
  {
    hide Apply, Enabled;
    if steps != [] {
      var rest, m := steps[1..], Apply(w, steps[0]);
      StepOnSocket(w, steps[0], k);
      LastSendCounts(m, rest, k);
      assert forall i :: 0 < i < |steps| ==> steps[i] == rest[i - 1];
      forall i: nat | LastSend(steps, k, i)
        ensures Run(w, steps).sockets[k].sendevent == (steps[i].event == SendPlus)
      {
        if i > 0 { assert LastSend(rest, k, i - 1); }
      }
    }
  }

  lemma {:induction false} LastLeftoverCounts(w: World, steps: seq<Step>, k: nat)
    requires RunEnabled(w, steps) && k < |w.sockets|
    ensures var r := Run(w, steps);
            && |r.sockets| == |w.sockets|
            && (forall i: nat :: LastLeftover(steps, k, i) ==> r.sockets[k].lastData == steps[i].lastData)
            && ((forall i :: 0 <= i < |steps| ==> !IsLeftover(steps[i], k)) ==> r.sockets[k].lastData == w.sockets[k].lastData)
    decreases |steps|
  {
    hide Apply, Enabled;
    if steps != [] {
      var rest, m := steps[1..], Apply(w, steps[0]);
      StepOnSocket(w, steps[0], k);
      LastLeftoverCounts(m, rest, k);
      assert forall i :: 0 < i < |steps| ==> steps[i] == rest[i - 1];
      forall i: nat | LastLeftover(steps, k, i)
        ensures Run(w, steps).sockets[k].lastData == steps[i].lastData
      {
        if i > 0 { assert LastLeftover(rest, k, i - 1); }
      }
    }
  }

  // ---- an event reaches those who wait for it ----

  /** Callback `c` is begun by none of the steps. */
  ghost predicate NotBegun(steps: seq<Step>, c: nat) {
    forall s :: s in steps && s.Callback? ==> s.callback != c
  }

  /** A callback that is still in its loop is there for its socket. */
  lemma {:induction false} StillScanning(w: World, steps: seq<Step>, c: nat, k: nat)
    requires RunEnabled(w, steps) && NotBegun(steps, c) && (c in w.scanning ==> w.scanning[c] == k)
    ensures var r := Run(w, steps); c in r.scanning ==> r.scanning[c] == k
    decreases |steps|
  {
    hide ReadyToRead, ReadyToWrite, Matches, Position;
    if steps != [] {
      assert steps[0] in steps && forall s :: s in steps[1..] ==> s in steps;
      StillScanning(Apply(w, steps[0]), steps[1..], c, k);
    }
  }

  /** The callback leaves the loop at this look: nobody is left for it to signal. */
  lemma LastLook(w: World, c: nat, i: nat)
    requires Enabled(w, ScanList(c)) && c !in Apply(w, ScanList(c)).scanning && i < |w.list|
    ensures var k, r := w.scanning[c], Apply(w, ScanList(c));
            && r.list == w.list && r.sockets == w.sockets
            && (k in w.list[i].readset && w.sockets[k].rcvevent > 0 ==> w.list[i].signalled)
            && (k in w.list[i].writeset && w.sockets[k].sendevent ==> w.list[i].signalled)
  {
  }

  lemma {:induction false} RunOn(w: World, steps: seq<Step>, last: Step)
    requires RunEnabled(w, steps + [last])
    ensures RunEnabled(w, steps) && Enabled(Run(w, steps), last)
    ensures Run(w, steps + [last]) == Apply(Run(w, steps), last)
    decreases |steps|
  {
    hide Apply, Enabled;
    if steps == [] {
      assert (steps + [last])[1..] == [];
    } else {
      assert (steps + [last])[0] == steps[0] && (steps + [last])[1..] == steps[1..] + [last];
      RunOn(Apply(w, steps[0]), steps[1..], last);
    }
  }

  /**
   * Data arrives on socket `k`, and callback `c` runs through, whatever comes in between its
   * looks at the list.  If the data is not used up by then, every call on the list that reads
   * the socket has been signalled.
   */
  lemma ReadersAreSignalled(w: World, c: nat, k: nat, between: seq<Step>, i: nat)
    requires Enabled(w, Callback(c, k, RcvPlus)) && NotBegun(between, c)
    requires RunEnabled(Apply(w, Callback(c, k, RcvPlus)), between + [ScanList(c)])
    requires c !in Run(Apply(w, Callback(c, k, RcvPlus)), between + [ScanList(c)]).scanning
    requires w.sockets[k].rcvevent + 1 + Count(between, k, RcvPlus) - Count(between, k, RcvMinus) > 0
    ensures var r := Run(Apply(w, Callback(c, k, RcvPlus)), between + [ScanList(c)]);
            i < |r.list| && k in r.list[i].readset ==> r.list[i].signalled
  {
    hide RunEnabled, Run, FirstMatch;
    StepOnSocket(w, Callback(c, k, RcvPlus), k);
    var w1 := Apply(w, Callback(c, k, RcvPlus));
    RunOn(w1, between, ScanList(c));
    ReceiveEventsAreCounted(w1, between, k);
    StillScanning(w1, between, c, k);
    if i < |Run(w1, between).list| { LastLook(Run(w1, between), c, i); }
  }

  /** The same for a socket that can be written to again, if it is not full again by then. */
  lemma WritersAreSignalled(w: World, c: nat, k: nat, between: seq<Step>, i: nat)
    requires Enabled(w, Callback(c, k, SendPlus)) && NotBegun(between, c)
    requires RunEnabled(Apply(w, Callback(c, k, SendPlus)), between + [ScanList(c)])
    requires c !in Run(Apply(w, Callback(c, k, SendPlus)), between + [ScanList(c)]).scanning
    requires forall j :: 0 <= j < |between| ==> !IsSend(between[j], k)
    ensures var r := Run(Apply(w, Callback(c, k, SendPlus)), between + [ScanList(c)]);
            i < |r.list| && k in r.list[i].writeset ==> r.list[i].signalled
  {
    hide RunEnabled, Run, FirstMatch;
    StepOnSocket(w, Callback(c, k, SendPlus), k);
    var w1 := Apply(w, Callback(c, k, SendPlus));
    RunOn(w1, between, ScanList(c));
    LastSendCounts(w1, between, k);
    StillScanning(w1, between, c, k);
    if i < |Run(w1, between).list| { LastLook(Run(w1, between), c, i); }
  }

  /** A look at the list signals nobody in vain: at most one call, for what it waits for. */
  lemma SignalsAreDue(w: World, c: nat, i: nat)
    requires Enabled(w, ScanList(c)) && i < |w.list|
    ensures var k, r := w.scanning[c], Apply(w, ScanList(c));
            && |r.list| == |w.list| && r.list[i] == w.list[i].(signalled := r.list[i].signalled)
            && (w.list[i].signalled ==> r.list[i].signalled)
            && (r.list[i].signalled && !w.list[i].signalled ==>
                  (k in w.list[i].readset && w.sockets[k].rcvevent > 0) || (k in w.list[i].writeset && w.sockets[k].sendevent))
  {
  }

  // ---- who is on the list ----

  /** A call goes on the list exactly if nothing that it asks for below maxfdp1 is there yet
      and it may wait; it goes in front, not signalled. */
  lemma JoinsExactly(w: World, n: nat, rs: set<nat>, ws: set<nat>, poll: bool)
    ensures var r := Apply(w, Call(n, rs, ws, poll));
            && (r.list != w.list <==> !poll && forall k: nat :: k < n && k < |w.sockets| && w.sockets[k].active ==>
                 (k in rs ==> !w.sockets[k].lastData && w.sockets[k].rcvevent <= 0) && (k in ws ==> !w.sockets[k].sendevent))
            && (r.list != w.list ==> r.list == [Waiter(w.calls, n, rs, ws, false)] + w.list)
  {
    var r := Apply(w, Call(n, rs, ws, poll));
    assert r.list != w.list ==> |r.list| > |w.list|;
    if exists k: nat :: k < n && k < |w.sockets| && w.sockets[k].active
         && ((k in rs && (w.sockets[k].lastData || w.sockets[k].rcvevent > 0)) || (k in ws && w.sockets[k].sendevent)) {
      var k: nat :| k < n && k < |w.sockets| && w.sockets[k].active
         && ((k in rs && (w.sockets[k].lastData || w.sockets[k].rcvevent > 0)) || (k in ws && w.sockets[k].sendevent));
      assert k in ReadyToRead(w.sockets, n, rs) || k in ReadyToWrite(w.sockets, n, ws);
    }
  }

  /** A call that returns is off the list, and the others stay as they are. */
  lemma LeavesAlone(w: World, id: nat)
    requires SignalledOnce(w) && Enabled(w, Leave(id))
    ensures var r := Apply(w, Leave(id));
            && (forall i :: 0 <= i < |r.list| ==> r.list[i].id != id)
            && exists p :: 0 <= p < |w.list| && w.list[p].id == id && r.list == w.list[..p] + w.list[p + 1..]
  {
    hide ReadyToRead, ReadyToWrite, Matches;
    var r, p := Apply(w, Leave(id)), Position(w.list, id);
    assert r.list == w.list[..p] + w.list[p + 1..];
  }
}
