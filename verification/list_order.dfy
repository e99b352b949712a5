/**
 * What the two disciplines of the list mean over whole runs: the walked ring of a
 * ready list is fair, and a value-sorted event list always has the best waiter,
 * earliest among equals, at its head.
 */
module ListOrder {
  import opened Seqs

  // ---- the ready list as a ring of owners ----

  datatype RingOp = Next | Append(x: nat) | Delete(x: nat)

  function RingStep(ring: seq<nat>, op: RingOp): seq<nat> {
    match op
    case Next => if ring == [] then [] else ring[1..] + ring[..1]
    case Append(x) => if x in ring then ring else ring + [x]
    case Delete(x) => Without(ring, x)
  }

  function RingRun(ring: seq<nat>, ops: seq<RingOp>): seq<nat>
    decreases |ops|
  {
    if ops == [] then ring else RingRun(RingStep(ring, ops[0]), ops[1..])
  }

  /** Operation `i` of the run is a walk step that returns `x`. */
  ghost predicate SelectedAt(ring: seq<nat>, ops: seq<RingOp>, i: nat, x: nat) {
    i < |ops| && ops[i].Next? && var r := RingRun(ring, ops[..i]); r != [] && r[0] == x
  }

  ghost predicate Ahead(ring: seq<nat>, u: nat, t: nat) {
    NoDup(ring) && u in ring && (t in ring ==> IndexOf(ring, u) < IndexOf(ring, t))
  }

  lemma StepKeepsAhead(ring: seq<nat>, op: RingOp, u: nat, t: nat)
    requires Ahead(ring, u, t) && u != t
    requires op != Delete(u) && !(op.Next? && ring[0] == u)
    ensures Ahead(RingStep(ring, op), u, t)
  {
    var r := RingStep(ring, op);
    var iu, it := IndexOf(ring, u), IndexOf(ring, t);
    match op
    case Next =>
      assert r[iu - 1] == u && u !in r[..iu - 1] by { assert r[..iu - 1] == ring[1..iu]; }
      assert t in ring ==> r[it - 1] == t;
    case Append(x) =>
      assert r[iu] == u;
    case Delete(x) =>
      WithoutMembers(ring, x);
      var ix := IndexOf(ring, x);
      assert r[if ix < iu then iu - 1 else iu] == u;
  }

  /**
   * Fairness of the walk.  Task `t` has just been returned, so every other member is
   * ahead of it; if `u` stays in the list, `t` is not returned again before `u` was.
   */
  lemma {:induction false} RoundRobin(ring: seq<nat>, ops: seq<RingOp>, n: nat, t: nat, u: nat)
    requires NoDup(ring) && u in ring && u != t && (t in ring ==> ring[|ring| - 1] == t)
    requires forall i :: 0 <= i < |ops| ==> ops[i] != Delete(u)
    requires SelectedAt(ring, ops, n, t)
    ensures exists i :: 0 <= i < n && SelectedAt(ring, ops, i, u)
  {
    assert Ahead(ring, u, t) by {
      var i, j := IndexOf(ring, u), IndexOf(ring, t);
      assert ring[i] == u;
      if t in ring {
        assert ring[j] == t;
        assert j == |ring| - 1;
      }
    }
    AheadIsFirst(ring, ops, n, t, u);
  }

  lemma {:induction false} AheadIsFirst(ring: seq<nat>, ops: seq<RingOp>, n: nat, t: nat, u: nat)
    requires Ahead(ring, u, t) && u != t
    requires forall i :: 0 <= i < |ops| ==> ops[i] != Delete(u)
    requires SelectedAt(ring, ops, n, t)
    ensures exists i :: 0 <= i < n && SelectedAt(ring, ops, i, u)
    decreases |ops|
  {
    assert ops[..0] == [];
    if ops[0].Next? && ring[0] == u {
      assert SelectedAt(ring, ops, 0, u);
    } else {
      StepKeepsAhead(ring, ops[0], u, t);
      assert n > 0;
      var rest := RingStep(ring, ops[0]);
      assert ops[..n][1..] == ops[1..][..n - 1];
      AheadIsFirst(rest, ops[1..], n - 1, t, u);
      var i :| 0 <= i < n - 1 && SelectedAt(rest, ops[1..], i, u);
      assert ops[..i + 1][1..] == ops[1..][..i];
      assert SelectedAt(ring, ops, i + 1, u);
    }
  }

  // ---- the event list, sorted by value and stable ----

  /** A waiter; `stamp` is its place in the order of arrival and is read by nobody. */
  datatype Waiter = Waiter(id: nat, value: nat, stamp: nat)

  datatype EventOp = Arrive(id: nat, value: nat) | Leave(i: nat)

  function WaiterValues(s: seq<Waiter>): (vs: seq<nat>)
    ensures |vs| == |s|
  {
    seq(|s|, i requires 0 <= i < |s| => s[i].value)
  }

  /** Arrivals go in by value; a waiter leaves from any position (wake-up is position 0). */
  function EventStep(s: seq<Waiter>, op: EventOp, stamp: nat): seq<Waiter> {
    match op
    case Arrive(id, v) => InsertAt(s, InsertPosition(WaiterValues(s), v), Waiter(id, v, stamp))
    case Leave(i) => if i < |s| then RemoveAt(s, i) else s
  }

  function EventRun(ops: seq<EventOp>): seq<Waiter> {
    if ops == [] then [] else EventStep(EventRun(ops[..|ops| - 1]), ops[|ops| - 1], |ops|)
  }

  ghost predicate Before(a: Waiter, b: Waiter) {
    a.value < b.value || (a.value == b.value && a.stamp < b.stamp)
  }

  ghost predicate StablySorted(s: seq<Waiter>) {
    forall i, j :: 0 <= i < j < |s| ==> Before(s[i], s[j])
  }

  lemma ArrivalKeepsOrder(s: seq<Waiter>, id: nat, v: nat, stamp: nat)
    requires StablySorted(s) && forall i :: 0 <= i < |s| ==> s[i].stamp < stamp
    ensures StablySorted(EventStep(s, Arrive(id, v), stamp))
  {
    var vs := WaiterValues(s);
    var p, w := InsertPosition(vs, v), Waiter(id, v, stamp);
    forall k | 0 <= k < p
      ensures Before(s[k], w)
    {
      assert vs[k] == s[k].value && vs[k] <= v;
    }
    forall k | p <= k < |s|
      ensures Before(w, s[k])
    {
      assert vs[p] == s[p].value && v < vs[p];
      assert k == p || Before(s[p], s[k]);
    }
  }

  /** Over every run of arrivals and departures the list is sorted by value and, among
      equal values, by arrival; so its head is the best waiter and the first of its kind. */
  lemma {:induction false} HeadIsBestWaiter(ops: seq<EventOp>)
    ensures StablySorted(EventRun(ops))
    ensures forall w :: w in EventRun(ops) ==> w.stamp <= |ops|
    ensures forall w :: w in EventRun(ops) ==> w == EventRun(ops)[0] || Before(EventRun(ops)[0], w)
  {
    if ops != [] {
      var front, op := ops[..|ops| - 1], ops[|ops| - 1];
      HeadIsBestWaiter(front);
      var s := EventRun(front);
      if op.Arrive? {
        ArrivalKeepsOrder(s, op.id, op.value, |ops|);
      }
    }
  }
}
