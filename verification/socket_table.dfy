/**
 * The socket array and the list of waiting calls in place (sockets.c): the scan of select,
 * joining and leaving the list, and the callback that looks through it.
 */
module SocketTable {
  import opened Seqs
  import opened Select

  class SelectState {
    const sockets: array<Socket>
    var list: seq<Waiter>        // select_cb_list
    var calls: nat
    var posted: seq<nat>         // the calls whose semaphores were signalled, in order

    constructor (sockets: array<Socket>)
      ensures this.sockets == sockets && list == [] && calls == 0 && posted == []
    {
      this.sockets := sockets;
      list, calls, posted := [], 0, [];
    }

    /** lwip_selscan: the sets are cut down to the sockets that are ready, and these are counted. */
    method SelScan(maxfdp1: nat, readset: set<nat>, writeset: set<nat>)
      returns (nready: nat, lreadset: set<nat>, lwriteset: set<nat>)
      ensures lreadset == ReadyToRead(sockets[..], maxfdp1, readset)
      ensures lwriteset == ReadyToWrite(sockets[..], maxfdp1, writeset)
      ensures nready == |lreadset| + |lwriteset|
    {
      nready, lreadset, lwriteset := 0, {}, {};
      for i := 0 to maxfdp1
        invariant lreadset == ReadyToRead(sockets[..], i, readset)
        invariant lwriteset == ReadyToWrite(sockets[..], i, writeset)
        invariant nready == |lreadset| + |lwriteset|
      {
        if i in readset {
          if i < sockets.Length && sockets[i].active && (sockets[i].lastData || sockets[i].rcvevent > 0) {
            lreadset := lreadset + {i};
            nready := nready + 1;
          }
        }
        if i in writeset {
          if i < sockets.Length && sockets[i].active && sockets[i].sendevent {
            lwriteset := lwriteset + {i};
            nready := nready + 1;
          }
        }
      }
    }

    /** The first hold of selectsem in lwip_select: scan, and join the list if nothing is ready. */
    method ScanOrJoin(maxfdp1: nat, readset: set<nat>, writeset: set<nat>, poll: bool)
      returns (nready: nat, joined: bool)
      modifies this`list, this`calls
      ensures nready > 0 <==> ReadyToRead(sockets[..], maxfdp1, readset) != {} || ReadyToWrite(sockets[..], maxfdp1, writeset) != {}
      ensures joined <==> nready == 0 && !poll
      ensures calls == old(calls) + 1
      ensures list == if joined then [Waiter(old(calls), maxfdp1, readset, writeset, false)] + old(list) else old(list)
    {
      var lreadset, lwriteset;
      nready, lreadset, lwriteset := SelScan(maxfdp1, readset, writeset);
      Counted(lreadset, lwriteset);
      joined := false;
      if nready == 0 {
        if !poll {
          list := [Waiter(calls, maxfdp1, readset, writeset, false)] + list;
          joined := true;
        }
      }
      calls := calls + 1;
    }

    static lemma Counted(a: set<nat>, b: set<nat>)
      ensures |a| + |b| == 0 <==> a == {} && b == {}
    {
    }

    /** The walk by which lwip_select takes its call off the list, if it is still there. */
    method TakeOff(id: nat)
      modifies this`list
      ensures list == if Position(old(list), id) < |old(list)| then RemoveAt(old(list), Position(old(list), id)) else old(list)
    {
      var i := 0;
      while i < |list| && list[i].id != id
        invariant i <= Position(list, id) && list == old(list)
      {
        i := i + 1;
      }
      assert i == Position(list, id);
      if i < |list| {
        assert RemoveAt(list, i) == list[..i] + list[i + 1..];
        list := list[..i] + list[i + 1..];
      }
    }

    /** One hold of selectsem in the loop of event_callback. */
    method SignalOne(s: nat) returns (found: bool)
      requires s < sockets.Length
      modifies this`list, this`posted
      ensures found <==> FirstMatch(old(list), s, sockets[s]) < |old(list)|
      ensures !found ==> list == old(list) && posted == old(posted)
      ensures found ==>
                var p := FirstMatch(old(list), s, sockets[s]);
                list == old(list)[p := old(list)[p].(signalled := true)] && posted == old(posted) + [old(list)[p].id]
    {
      var i := 0;
      while i < |list|
        invariant i <= FirstMatch(list, s, sockets[s]) && list == old(list) && posted == old(posted)
      {
        var scb := list[i];
        if !scb.signalled {
          if s in scb.readset && sockets[s].rcvevent > 0 { break; }
          if s in scb.writeset && sockets[s].sendevent { break; }
        }
        i := i + 1;
      }
      assert i == FirstMatch(list, s, sockets[s]);
      found := i < |list|;
      if found {
        posted := posted + [list[i].id];
        list := list[i := list[i].(signalled := true)];
      }
    }

    /** event_callback when it runs through without being interleaved: afterwards exactly those
        waiters are signalled that were before or that are waiting for what happened. */
    method EventCallback(s: nat, e: Event)
      requires s < sockets.Length && sockets[s].active
      modifies this`list, this`posted, sockets
      ensures forall k :: 0 <= k < sockets.Length && k != s ==> sockets[k] == old(sockets[k])
      ensures sockets[s].active && sockets[s].lastData == old(sockets[s].lastData)
      ensures sockets[s].rcvevent == old(sockets[s].rcvevent) + (if e == RcvPlus then 1 else if e == RcvMinus then -1 else 0)
      ensures sockets[s].sendevent == (if e == SendPlus then true else if e == SendMinus then false else old(sockets[s].sendevent))
      ensures sockets[s] == After(old(sockets[s]), e)
      ensures |list| == |old(list)|
      ensures forall i :: 0 <= i < |list| ==>
                list[i] == old(list[i]).(signalled := old(list[i]).signalled || Matches(old(list[i]), s, sockets[s]))
    {
      match e {
        case RcvPlus => sockets[s] := sockets[s].(rcvevent := sockets[s].rcvevent + 1);
        case RcvMinus => sockets[s] := sockets[s].(rcvevent := sockets[s].rcvevent - 1);
        case SendPlus => sockets[s] := sockets[s].(sendevent := true);
        case SendMinus => sockets[s] := sockets[s].(sendevent := false);
      }
      ghost var k := sockets[s];
      var found := true;
      while found
        invariant sockets[..] == old(sockets[..])[s := After(old(sockets[s]), e)] && |list| == |old(list)|
        invariant forall i :: 0 <= i < |list| ==>
                    list[i] == old(list[i]) || (list[i] == old(list[i]).(signalled := true) && Matches(old(list[i]), s, k))
        invariant !found ==> FirstMatch(list, s, k) == |list|
        decreases found, Unsignalled(list)
      {
        ghost var before := list;
        found := SignalOne(s);
        if found { SignalledOneLess(before, FirstMatch(before, s, k)); }
      }
    }

    static ghost function Unsignalled(l: seq<Waiter>): nat {
      if l == [] then 0 else (if l[0].signalled then 0 else 1) + Unsignalled(l[1..])
    }

    static lemma {:induction false} SignalledOneLess(l: seq<Waiter>, p: nat)
      requires p < |l| && !l[p].signalled
      ensures Unsignalled(l[p := l[p].(signalled := true)]) < Unsignalled(l)
    {
      var r := l[p := l[p].(signalled := true)];
      if p == 0 {
        assert r[1..] == l[1..];
      } else {
        assert r[1..] == l[1..][p - 1 := l[p].(signalled := true)];
        SignalledOneLess(l[1..], p - 1);
      }
    }
  }
}
