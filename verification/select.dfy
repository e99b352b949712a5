/**
 * select against the event callbacks of the network thread (sockets.c), in any
 * interleaving.  One step is what happens under one hold of selectsem.
 */
module Select {
  import opened Seqs

  /** struct lwip_socket, as far as select looks at it; `active` if it has a netconn. */
  datatype Socket = Socket(active: bool, lastData: bool, rcvevent: int, sendevent: bool)

  /** struct lwip_select_cb; `id` tells the calls of select apart. */
  datatype Waiter = Waiter(id: nat, maxfdp1: nat, readset: set<nat>, writeset: set<nat>, signalled: bool)

  datatype Event = RcvPlus | RcvMinus | SendPlus | SendMinus

  datatype World = World(
    sockets: seq<Socket>,
    list: seq<Waiter>,           // select_cb_list
    scanning: map<nat, nat>,     // callbacks in their loop, and the socket each is for
    signals: map<nat, nat>,      // how often the semaphore of a call of select was signalled
    calls: nat)                  // calls of select so far

  datatype Step =
    | Call(maxfdp1: nat, readset: set<nat>, writeset: set<nat>, poll: bool)
    | Leave(id: nat)                               // woken or timed out
    | Callback(callback: nat, socket: nat, event: Event)
    | ScanList(callback: nat)
    | Leftover(socket: nat, lastData: bool)        // a receive keeps or uses up the rest of a buffer

  function Readable(k: Socket): bool { k.active && (k.lastData || k.rcvevent > 0) }
  function Writable(k: Socket): bool { k.active && k.sendevent }

  /** lwip_selscan: which sockets of the sets are ready. */
  function ReadyToRead(sockets: seq<Socket>, maxfdp1: nat, readset: set<nat>): set<nat> {
    set i | i in readset && i < maxfdp1 && i < |sockets| && Readable(sockets[i])
  }

  function ReadyToWrite(sockets: seq<Socket>, maxfdp1: nat, writeset: set<nat>): set<nat> {
    set i | i in writeset && i < maxfdp1 && i < |sockets| && Writable(sockets[i])
  }

  /** Is `w` waiting for what has happened on socket `s`? */
  predicate Matches(w: Waiter, s: nat, k: Socket) {
    (s in w.readset && k.rcvevent > 0) || (s in w.writeset && k.sendevent)
  }

  /** The first waiter that a callback for socket `s` has to signal, or the length of the list. */
  function FirstMatch(list: seq<Waiter>, s: nat, k: Socket): (p: nat)
    ensures p <= |list| && (p < |list| ==> !list[p].signalled && Matches(list[p], s, k))
    ensures forall i :: 0 <= i < p ==> list[i].signalled || !Matches(list[i], s, k)
  {
    if list == [] || (!list[0].signalled && Matches(list[0], s, k)) then 0 else 1 + FirstMatch(list[1..], s, k)
  }

  function Position(list: seq<Waiter>, id: nat): (p: nat)
    ensures p <= |list| && (p < |list| ==> list[p].id == id)
    ensures forall i :: 0 <= i < p ==> list[i].id != id
  {
    if list == [] || list[0].id == id then 0 else 1 + Position(list[1..], id)
  }

  function After(k: Socket, e: Event): Socket {
    match e
    case RcvPlus => k.(rcvevent := k.rcvevent + 1)
    case RcvMinus => k.(rcvevent := k.rcvevent - 1)
    case SendPlus => k.(sendevent := true)
    case SendMinus => k.(sendevent := false)
  }

  predicate Enabled(w: World, s: Step) {
    match s
    case Call(_, _, _, _) => true
    case Leave(id) => Position(w.list, id) < |w.list|
    case Callback(c, k, _) => c !in w.scanning && k < |w.sockets| && w.sockets[k].active
    case ScanList(c) => c in w.scanning && w.scanning[c] < |w.sockets|
    case Leftover(k, _) => k < |w.sockets|
  }

  function Signals(w: World, id: nat): nat { if id in w.signals then w.signals[id] else 0 }

  function ApplyCall(w: World, n: nat, rs: set<nat>, ws: set<nat>, poll: bool): World {
    var ready := ReadyToRead(w.sockets, n, rs) != {} || ReadyToWrite(w.sockets, n, ws) != {};
    w.(calls := w.calls + 1,
       list := if ready || poll then w.list else [Waiter(w.calls, n, rs, ws, false)] + w.list)
  }

  function ApplyScan(w: World, c: nat): World
    requires c in w.scanning && w.scanning[c] < |w.sockets|
  {
    var s := w.scanning[c];
    var p := FirstMatch(w.list, s, w.sockets[s]);
    if p < |w.list|
    then w.(list := w.list[p := w.list[p].(signalled := true)],
            signals := w.signals[w.list[p].id := Signals(w, w.list[p].id) + 1])
    else w.(scanning := w.scanning - {c})
  }

  function Apply(w: World, s: Step): World
    requires Enabled(w, s)
  {
    match s
    case Call(n, rs, ws, poll) => ApplyCall(w, n, rs, ws, poll)
    case Leave(id) => w.(list := RemoveAt(w.list, Position(w.list, id)))
    case Callback(c, k, e) => w.(sockets := w.sockets[k := After(w.sockets[k], e)], scanning := w.scanning[c := k])
    case ScanList(c) => ApplyScan(w, c)
    case Leftover(k, b) => w.(sockets := w.sockets[k := w.sockets[k].(lastData := b)])
  }

  // ---- no event is missed ----

  ghost predicate BeingScanned(w: World, s: nat) {
    exists c :: c in w.scanning && w.scanning[c] == s
  }

  /** Something has happened on socket `s` that waiter `i` of the list is to be told. */
  predicate Concerns(w: World, i: nat, s: nat) {
    && i < |w.list| && s < |w.sockets| && s < w.list[i].maxfdp1 && w.sockets[s].active
    && Matches(w.list[i], s, w.sockets[s])
  }

  /** A waiter that is concerned is signalled, or a callback for that socket is still looking
      through the list. */
  ghost predicate Attended(w: World) {
    forall i: nat, s: nat :: Concerns(w, i, s) && !w.list[i].signalled ==> BeingScanned(w, s)
  }

  /** Calls are told apart, and one that is signalled was signalled once. */
  ghost predicate SignalledOnce(w: World) {
    && (forall i :: 0 <= i < |w.list| ==> w.list[i].id < w.calls)
    && (forall i, j :: 0 <= i < j < |w.list| ==> w.list[i].id != w.list[j].id)
    && (forall i :: 0 <= i < |w.list| ==> Signals(w, w.list[i].id) == if w.list[i].signalled then 1 else 0)
    && (forall id :: Signals(w, id) <= 1) && (forall id :: id >= w.calls ==> Signals(w, id) == 0)
  }

  ghost predicate Inv(w: World) {
    Attended(w) && SignalledOnce(w)
  }

  lemma CallAttended(w: World, n: nat, rs: set<nat>, ws: set<nat>, poll: bool)
    requires Attended(w)
    ensures Attended(ApplyCall(w, n, rs, ws, poll))
  {
    var r := ApplyCall(w, n, rs, ws, poll);
    if r.list != w.list {
      forall s: nat
        ensures !Concerns(r, 0, s)
      {
        assert s !in ReadyToRead(w.sockets, n, rs) && s !in ReadyToWrite(w.sockets, n, ws);
      }
    }
    forall i: nat, s: nat | Concerns(r, i, s) && !r.list[i].signalled
      ensures BeingScanned(r, s)
    {
      assert Concerns(w, if r.list == w.list then i else i - 1, s);
    }
  }

  lemma LeaveAttended(w: World, id: nat)
    requires Attended(w) && Enabled(w, Leave(id))
    ensures Attended(Apply(w, Leave(id)))
  {
    var r, p := Apply(w, Leave(id)), Position(w.list, id);
    forall i: nat, s: nat | Concerns(r, i, s) && !r.list[i].signalled
      ensures BeingScanned(r, s)
    {
      assert Concerns(w, if i < p then i else i + 1, s);
    }
  }

  lemma ScannedStays(w: World, r: World, s: nat)
    requires BeingScanned(w, s) && forall d :: d in w.scanning && w.scanning[d] == s ==> d in r.scanning && r.scanning[d] == s
    ensures BeingScanned(r, s)
  {
  }

  lemma CallbackAttended(w: World, c: nat, k: nat, e: Event)
    requires Attended(w) && Enabled(w, Callback(c, k, e))
    ensures Attended(Apply(w, Callback(c, k, e)))
  {
    var r := Apply(w, Callback(c, k, e));
    forall i: nat, s: nat | Concerns(r, i, s) && !r.list[i].signalled
      ensures BeingScanned(r, s)
    {
      if s == k {
        assert c in r.scanning && r.scanning[c] == s;
      } else {
        assert Concerns(w, i, s);
        ScannedStays(w, r, s);
      }
    }
  }

  /** A callback leaves the loop only when it finds nobody left to signal for its socket. */
  lemma ScanAttended(w: World, c: nat)
    requires Attended(w) && Enabled(w, ScanList(c))
    ensures Attended(ApplyScan(w, c))
  {
    var r, k := ApplyScan(w, c), w.scanning[c];
    var p := FirstMatch(w.list, k, w.sockets[k]);
    forall i: nat, s: nat | Concerns(r, i, s) && !r.list[i].signalled
      ensures BeingScanned(r, s)
    {
      assert Concerns(w, i, s) && !w.list[i].signalled;
      assert p == |w.list| ==> s != k;
      ScannedStays(w, r, s);
    }
  }

  lemma LeftoverAttended(w: World, k: nat, b: bool)
    requires Attended(w) && Enabled(w, Leftover(k, b))
    ensures Attended(Apply(w, Leftover(k, b)))
  {
    var r := Apply(w, Leftover(k, b));
    forall i: nat, s: nat | Concerns(r, i, s) && !r.list[i].signalled
      ensures BeingScanned(r, s)
    {
      assert Concerns(w, i, s);
      ScannedStays(w, r, s);
    }
  }

  lemma StepAttended(w: World, s: Step)
    requires Attended(w) && Enabled(w, s)
    ensures Attended(Apply(w, s))
  {
    hide Attended;
    match s
    case Call(n, rs, ws, poll) => CallAttended(w, n, rs, ws, poll);
    case Leave(id) => LeaveAttended(w, id);
    case Callback(c, k, e) => CallbackAttended(w, c, k, e);
    case ScanList(c) => ScanAttended(w, c);
    case Leftover(k, b) => LeftoverAttended(w, k, b);
  }

  lemma StepSignalsOnce(w: World, s: Step)
    requires SignalledOnce(w) && Enabled(w, s)
    ensures SignalledOnce(Apply(w, s))
  {
    hide ReadyToRead, ReadyToWrite, Matches;
    var r := Apply(w, s);
    if s.ScanList? {
      ScanSignalsOnce(w, s.callback);
    } else {
      assert forall id :: Signals(r, id) == Signals(w, id);
    }
  }

  lemma ScanSignalsOnce(w: World, c: nat)
    requires SignalledOnce(w) && Enabled(w, ScanList(c))
    ensures SignalledOnce(ApplyScan(w, c))
  {
    hide Matches;
    var r := ApplyScan(w, c);
    var p := FirstMatch(w.list, w.scanning[c], w.sockets[w.scanning[c]]);
    forall id
      ensures Signals(r, id) == if p < |w.list| && id == w.list[p].id then 1 else Signals(w, id)
    {
    }
  }

  lemma StepKeeps(w: World, s: Step)
    requires Inv(w) && Enabled(w, s)
    ensures Inv(Apply(w, s))
  {
    hide Attended, SignalledOnce, Apply;
    StepAttended(w, s);
    StepSignalsOnce(w, s);
  }

  // ---- whole runs ----

  function Run(w: World, steps: seq<Step>): World
    requires RunEnabled(w, steps)
    decreases |steps|
  {
    if steps == [] then w else Run(Apply(w, steps[0]), steps[1..])
  }

  predicate RunEnabled(w: World, steps: seq<Step>)
    decreases |steps|
  {
    steps != [] ==> Enabled(w, steps[0]) && RunEnabled(Apply(w, steps[0]), steps[1..])
  }

  function Fresh(sockets: seq<Socket>): World { World(sockets, [], map[], map[], 0) }

  lemma {:induction false} RunKeeps(w: World, steps: seq<Step>)
    requires Inv(w) && RunEnabled(w, steps)
    ensures Inv(Run(w, steps))
    decreases |steps|
  {
    hide Inv, Apply, Enabled;
    if steps != [] {
      StepKeeps(w, steps[0]);
      RunKeeps(Apply(w, steps[0]), steps[1..]);
    }
  }

  /**
   * select misses no event.  In every state of every run: a call of select on the list that
   * has an event on one of its sockets below maxfdp1 was signalled or is about to be, by a
   * callback that is still scanning; and no call is signalled twice.
   */
  lemma SelectMissesNoEvent(sockets: seq<Socket>, steps: seq<Step>)
    requires RunEnabled(Fresh(sockets), steps)
    ensures var w := Run(Fresh(sockets), steps);
            && (forall i: nat, s: nat :: Concerns(w, i, s) ==> Signals(w, w.list[i].id) == 1 || BeingScanned(w, s))
            && (forall id :: Signals(w, id) <= 1)
  {
    hide RunEnabled, Run, Apply, Enabled, Matches;
    RunKeeps(Fresh(sockets), steps);
  }

  /** A call that has left the list is never signalled again: its semaphore may be freed. */
  lemma {:induction false} GoneIsQuiet(w: World, steps: seq<Step>, id: nat)
    requires Inv(w) && RunEnabled(w, steps) && id < w.calls && Position(w.list, id) == |w.list|
    ensures Signals(Run(w, steps), id) == Signals(w, id)
    decreases |steps|
  {
    hide Inv;
    if steps != [] {
      StepKeeps(w, steps[0]);
      var r := Apply(w, steps[0]);
      assert forall i :: 0 <= i < |w.list| ==> w.list[i].id != id;
      assert forall i :: 0 <= i < |r.list| ==> r.list[i].id != id;
      assert Signals(r, id) == Signals(w, id);
      GoneIsQuiet(r, steps[1..], id);
    }
  }

  // ---- sockets from maxfdp1 on ----

  /** The callback does not look at maxfdp1, and select does: a socket in the sets from maxfdp1
      on that is ready already leaves the caller waiting, with nobody on the way to it. */
  lemma BeyondMaxfdp1(k: Socket)
    requires k.active && k.rcvevent > 0
    ensures var w := Run(Fresh([k]), [Call(0, {0}, {}, false)]);
            RunEnabled(Fresh([k]), [Call(0, {0}, {}, false)])
            && |w.list| == 1 && !w.list[0].signalled && Matches(w.list[0], 0, k) && !BeingScanned(w, 0)
  {
    var w := Fresh([k]);
    assert ReadyToRead(w.sockets, 0, {0}) == {} && ReadyToWrite(w.sockets, 0, {}) == {};
    assert [Call(0, {0}, {}, false)][1..] == [];
    assert Apply(w, Call(0, {0}, {}, false)).list == [Waiter(0, 0, {0}, {}, false)];
  }

  /** With no callback on its way for socket `s`, a call that goes on the list is left waiting
      for something that has already happened exactly if it asked for `s` without covering it
      by maxfdp1. */
  lemma EnlistedExact(w: World, n: nat, rs: set<nat>, ws: set<nat>, s: nat)
    requires s < |w.sockets| && w.sockets[s].active && !BeingScanned(w, s)
    requires ApplyCall(w, n, rs, ws, false).list != w.list
    ensures var r := ApplyCall(w, n, rs, ws, false);
            (Matches(r.list[0], s, r.sockets[s]) && !BeingScanned(r, s)) <==>
            (n <= s && ((s in rs && w.sockets[s].rcvevent > 0) || (s in ws && w.sockets[s].sendevent)))
  {
    assert s !in ReadyToRead(w.sockets, n, rs) && s !in ReadyToWrite(w.sockets, n, ws);
  }

  // ---- data left over from a receive ----

  /** With no callback scanning, a call on the list that was not signalled would find something
      ready if it looked again exactly if data is left over on a socket that it reads: that is
      the one kind of readiness that comes without an event. */
  lemma LeftoverExact(w: World, i: nat)
    requires Inv(w) && w.scanning == map[] && i < |w.list| && !w.list[i].signalled
    ensures var c := w.list[i];
            (ReadyToRead(w.sockets, c.maxfdp1, c.readset) != {} || ReadyToWrite(w.sockets, c.maxfdp1, c.writeset) != {}) <==>
            exists s :: s in c.readset && s < c.maxfdp1 && s < |w.sockets| && w.sockets[s].active && w.sockets[s].lastData
  {
    var c := w.list[i];
    forall s: nat
      ensures !Concerns(w, i, s)
    {
      assert Concerns(w, i, s) ==> BeingScanned(w, s);
    }
    forall s | s in c.readset && s < c.maxfdp1 && s < |w.sockets| && w.sockets[s].active && w.sockets[s].lastData
      ensures s in ReadyToRead(w.sockets, c.maxfdp1, c.readset)
    {
    }
    forall s | s in ReadyToRead(w.sockets, c.maxfdp1, c.readset)
      ensures w.sockets[s].lastData
    {
      assert !Concerns(w, i, s);
    }
    forall s: nat
      ensures s !in ReadyToWrite(w.sockets, c.maxfdp1, c.writeset)
    {
      assert !Concerns(w, i, s);
    }
    if ReadyToRead(w.sockets, c.maxfdp1, c.readset) != {} {
      var x :| x in ReadyToRead(w.sockets, c.maxfdp1, c.readset);
      assert w.sockets[x].lastData;
    }
  }

  /** It happens: a call waits for socket 0, a receive leaves data over on it, and nobody
      signals the call. */
  lemma LeftoverExample(k: Socket)
    requires k.active && !k.lastData && k.rcvevent <= 0
    ensures var steps := [Call(1, {0}, {}, false), Leftover(0, true)];
            && RunEnabled(Fresh([k]), steps)
            && var w := Run(Fresh([k]), steps);
               w.list == [Waiter(0, 1, {0}, {}, false)] && w.scanning == map[] && ReadyToRead(w.sockets, 1, {0}) == {0}
  {
    var w := Fresh([k]);
    var steps := [Call(1, {0}, {}, false), Leftover(0, true)];
    assert ReadyToRead(w.sockets, 1, {0}) == {} && ReadyToWrite(w.sockets, 1, {}) == {};
    var w1 := Apply(w, steps[0]);
    assert w1.list == [Waiter(0, 1, {0}, {}, false)];
    assert steps[1..] == [Leftover(0, true)] && steps[1..][1..] == [];
    var w2 := Apply(w1, Leftover(0, true));
    assert w2.sockets == [k.(lastData := true)];
  }
}
