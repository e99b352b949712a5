/**
 * Where the list items of tasks are.  A list is the sequence of its tasks: in walk
 * order for the ready lists and in list order for the others.  Every task has two
 * items, a generic one and an event one; the place of an item is its container.
 */
module Items {
  import opened Seqs
  import opened Tasks

  datatype Place =
    | Nowhere
    | Ready(priority: nat)
    | Delayed(second: bool)   // xDelayedTaskList1 or xDelayedTaskList2
    | Terminating
    | Event(queue: nat)
    | Pending

  /** The lists that hold event items; the others hold generic items. */
  predicate ForEvents(l: Place) {
    l.Event? || l.Pending?
  }

  datatype Items = Items(generic: map<Task, Place>, event: map<Task, Place>, lists: map<Place, seq<Task>>)

  function At(s: Items, l: Place): seq<Task> { if l in s.lists then s.lists[l] else [] }
  function Generic(s: Items, t: Task): Place { if t in s.generic then s.generic[t] else Nowhere }
  function EventPlace(s: Items, t: Task): Place { if t in s.event then s.event[t] else Nowhere }

  function Value(vs: map<Task, nat>, t: Task): nat { if t in vs then vs[t] else 0 }

  function Values(vs: map<Task, nat>, s: seq<Task>): (r: seq<nat>)
    ensures |r| == |s|
  {
    seq(|s|, i requires 0 <= i < |s| => Value(vs, s[i]))
  }

  // ---- the list operations on one item ----

  /** vListRemove on the generic item */
  function TakeGeneric(s: Items, t: Task): (r: Items)
    ensures forall x :: Generic(r, x) == if x == t then Nowhere else Generic(s, x)
    ensures forall x :: EventPlace(r, x) == EventPlace(s, x)
    ensures forall l :: At(r, l) == if l == Generic(s, t) then Without(At(s, l), t) else At(s, l)
  {
    var l := Generic(s, t);
    s.(generic := s.generic[t := Nowhere], lists := s.lists[l := Without(At(s, l), t)])
  }

  /** vListRemove on the event item */
  function TakeEvent(s: Items, t: Task): (r: Items)
    ensures forall x :: Generic(r, x) == Generic(s, x)
    ensures forall x :: EventPlace(r, x) == if x == t then Nowhere else EventPlace(s, x)
    ensures forall l :: At(r, l) == if l == EventPlace(s, t) then Without(At(s, l), t) else At(s, l)
  {
    var l := EventPlace(s, t);
    s.(event := s.event[t := Nowhere], lists := s.lists[l := Without(At(s, l), t)])
  }

  /** The generic item leaves its list, and the event item too if it is in one. */
  function TakeBoth(s: Items, t: Task): (r: Items)
    ensures forall x :: Generic(r, x) == if x == t then Nowhere else Generic(s, x)
    ensures forall x :: EventPlace(r, x) == if x == t then Nowhere else EventPlace(s, x)
  {
    var s1 := TakeGeneric(s, t);
    if EventPlace(s1, t) != Nowhere then TakeEvent(s1, t) else s1
  }

  function PutGeneric(s: Items, t: Task, l: Place, p: nat): (r: Items)
    requires p <= |At(s, l)|
    ensures forall x :: Generic(r, x) == if x == t then l else Generic(s, x)
    ensures forall x :: EventPlace(r, x) == EventPlace(s, x)
    ensures forall m :: At(r, m) == if m == l then InsertAt(At(s, l), p, t) else At(s, m)
  {
    s.(generic := s.generic[t := l], lists := s.lists[l := InsertAt(At(s, l), p, t)])
  }

  function PutEvent(s: Items, t: Task, l: Place, p: nat): (r: Items)
    requires p <= |At(s, l)|
    ensures forall x :: Generic(r, x) == Generic(s, x)
    ensures forall x :: EventPlace(r, x) == if x == t then l else EventPlace(s, x)
    ensures forall m :: At(r, m) == if m == l then InsertAt(At(s, l), p, t) else At(s, m)
  {
    s.(event := s.event[t := l], lists := s.lists[l := InsertAt(At(s, l), p, t)])
  }

  /** vListInsertEnd of a generic item */
  function AppendGeneric(s: Items, t: Task, l: Place): (r: Items)
    ensures forall x :: Generic(r, x) == if x == t then l else Generic(s, x)
    ensures forall x :: EventPlace(r, x) == EventPlace(s, x)
    ensures forall m :: At(r, m) == if m == l then At(s, l) + [t] else At(s, m)
  {
    assert InsertAt(At(s, l), |At(s, l)|, t) == At(s, l) + [t];
    PutGeneric(s, t, l, |At(s, l)|)
  }

  // ---- containers and lists agree ----

  ghost predicate HasPlace(s: Items, t: Task, l: Place) {
    l != Nowhere && l == if ForEvents(l) then EventPlace(s, t) else Generic(s, t)
  }

  /** The container of an item names the one list the item is in, and no list holds an item twice. */
  ghost predicate Placed(s: Items) {
    && (forall l :: NoDup(At(s, l)))
    && (forall t, l :: t in At(s, l) <==> HasPlace(s, t, l))
    && (forall t :: !ForEvents(Generic(s, t)))
    && (forall t :: EventPlace(s, t) == Nowhere || ForEvents(EventPlace(s, t)))
  }

  lemma TakeGenericPlaced(s: Items, t: Task)
    requires Placed(s)
    ensures Placed(TakeGeneric(s, t))
  {
    var l := Generic(s, t);
    assert NoDup(At(s, l));
    WithoutMembers(At(s, l), t);
    assert t in At(s, l) <==> HasPlace(s, t, l);
  }

  lemma TakeEventPlaced(s: Items, t: Task)
    requires Placed(s)
    ensures Placed(TakeEvent(s, t))
  {
    var l := EventPlace(s, t);
    assert NoDup(At(s, l));
    WithoutMembers(At(s, l), t);
    assert t in At(s, l) <==> HasPlace(s, t, l);
  }

  lemma PutGenericPlaced(s: Items, t: Task, l: Place, p: nat)
    requires Placed(s) && Generic(s, t) == Nowhere && l != Nowhere && !ForEvents(l) && p <= |At(s, l)|
    ensures Placed(PutGeneric(s, t, l, p))
  {
    assert NoDup(At(s, l));
    assert t in At(s, l) <==> HasPlace(s, t, l);
    InsertMembers(At(s, l), p, t);
  }

  lemma PutEventPlaced(s: Items, t: Task, l: Place, p: nat)
    requires Placed(s) && EventPlace(s, t) == Nowhere && ForEvents(l) && p <= |At(s, l)|
    ensures Placed(PutEvent(s, t, l, p))
  {
    assert NoDup(At(s, l));
    assert t in At(s, l) <==> HasPlace(s, t, l);
    InsertMembers(At(s, l), p, t);
  }

  lemma TakeBothPlaced(s: Items, t: Task)
    requires Placed(s)
    ensures Placed(TakeBoth(s, t))
    ensures forall l :: At(TakeBoth(s, t), l) == if HasPlace(s, t, l) then Without(At(s, l), t) else At(s, l)
  {
    TakeGenericPlaced(s, t);
    TakeEventPlaced(TakeGeneric(s, t), t);
    assert forall l :: t in At(s, l) <==> HasPlace(s, t, l);
  }

  // ---- tasks that become ready ----

  /** A blocked task becomes ready, leaving the event list it may be in. */
  function Unblock(s: Items, t: Task, p: nat): (r: Items)
    ensures forall x :: Generic(r, x) == if x == t then Ready(p) else Generic(s, x)
    ensures forall x :: EventPlace(r, x) == if x == t then Nowhere else EventPlace(s, x)
  {
    AppendGeneric(TakeBoth(s, t), t, Ready(p))
  }

  function UnblockAll(s: Items, ts: seq<Task>, priority: map<Task, nat>): Items
    decreases |ts|
  {
    if ts == [] then s else UnblockAll(Unblock(s, ts[0], Value(priority, ts[0])), ts[1..], priority)
  }

  /** Those of `ts` that have priority `p`, in order. */
  ghost function OfPriority(ts: seq<Task>, priority: map<Task, nat>, p: nat): seq<Task> {
    if ts == [] then []
    else (if Value(priority, ts[0]) == p then [ts[0]] else []) + OfPriority(ts[1..], priority, p)
  }

  ghost predicate PlacesAfter(s: Items, r: Items, ts: seq<Task>, priority: map<Task, nat>) {
    && (forall x :: Generic(r, x) == if x in ts then Ready(Value(priority, x)) else Generic(s, x))
    && (forall x :: EventPlace(r, x) == if x in ts then Nowhere else EventPlace(s, x))
  }

  ghost predicate RingsAfter(s: Items, r: Items, ts: seq<Task>, priority: map<Task, nat>) {
    && (forall p :: At(r, Ready(p)) == At(s, Ready(p)) + OfPriority(ts, priority, p))
    && At(r, Terminating) == At(s, Terminating)
  }

  /** A blocked task is readied: only its delayed list, its event list and one ring change. */
  lemma UnblockEffect(s: Items, t: Task, p: nat)
    requires Placed(s) && Generic(s, t).Delayed?
    ensures var r := Unblock(s, t, p);
            && Placed(r)
            && (forall q :: At(r, Ready(q)) == if q == p then At(s, Ready(q)) + [t] else At(s, Ready(q)))
            && At(r, Terminating) == At(s, Terminating)
            && (forall l: Place :: l.Delayed? || l.Pending? ==> At(r, l) == Without(At(s, l), t))
  {
    TakeBothPlaced(s, t);
    PutGenericPlaced(TakeBoth(s, t), t, Ready(p), |At(TakeBoth(s, t), Ready(p))|);
    assert forall l :: t in At(s, l) <==> HasPlace(s, t, l);
  }

  lemma WithoutHead(s: seq<Task>)
    requires s != [] && NoDup(s)
    ensures Without(s, s[0]) == s[1..]
  {
    assert RemoveAt(s, 0) == s[1..];
    WithoutAt(s, 0);
  }

  lemma {:induction false} UnblockAllPlaces(s: Items, ts: seq<Task>, priority: map<Task, nat>)
    ensures PlacesAfter(s, UnblockAll(s, ts, priority), ts, priority)
    decreases |ts|
  {
    if ts != [] {
      UnblockAllPlaces(Unblock(s, ts[0], Value(priority, ts[0])), ts[1..], priority);
      assert forall x :: x in ts <==> x == ts[0] || x in ts[1..];
    }
  }

  /** One ring after the first task, and after the rest. */
  lemma RingThen(a: seq<Task>, m: seq<Task>, r: seq<Task>, ts: seq<Task>, priority: map<Task, nat>, q: nat)
    requires ts != [] && m == if q == Value(priority, ts[0]) then a + [ts[0]] else a
    requires r == m + OfPriority(ts[1..], priority, q)
    ensures r == a + OfPriority(ts, priority, q)
  {
    assert a + [ts[0]] + OfPriority(ts[1..], priority, q) == a + ([ts[0]] + OfPriority(ts[1..], priority, q));
  }

  lemma RingsThen(s: Items, s1: Items, r: Items, ts: seq<Task>, priority: map<Task, nat>)
    requires ts != [] && RingsAfter(s1, r, ts[1..], priority) && At(s1, Terminating) == At(s, Terminating)
    requires forall q :: At(s1, Ready(q)) ==
               if q == Value(priority, ts[0]) then At(s, Ready(q)) + [ts[0]] else At(s, Ready(q))
    ensures RingsAfter(s, r, ts, priority)
  {
    hide At, OfPriority, Value;
    forall q
      ensures At(r, Ready(q)) == At(s, Ready(q)) + OfPriority(ts, priority, q)
    {
      RingThen(At(s, Ready(q)), At(s1, Ready(q)), At(r, Ready(q)), ts, priority, q);
    }
  }

  /** Readying blocked tasks one after another: each goes to the end of the ring of its
      priority, in the order given. */
  lemma {:induction false} UnblockAllEffect(s: Items, ts: seq<Task>, priority: map<Task, nat>)
    requires Placed(s) && NoDup(ts) && forall t :: t in ts ==> Generic(s, t).Delayed?
    ensures var r := UnblockAll(s, ts, priority);
            Placed(r) && RingsAfter(s, r, ts, priority)
    decreases |ts|
  {
    hide Placed, RingsAfter, Unblock, At;
    if ts == [] {
      NoneReadied(s, priority);
    } else {
      var t, p := ts[0], Value(priority, ts[0]);
      UnblockEffect(s, t, p);
      UnblockAllEffect(Unblock(s, t, p), ts[1..], priority);
      RingsThen(s, Unblock(s, t, p), UnblockAll(s, ts, priority), ts, priority);
    }
  }

  lemma NoneReadied(s: Items, priority: map<Task, nat>)
    ensures RingsAfter(s, s, [], priority)
  {
  }

  /** Readying the first `n` tasks of a delayed list leaves the others in their order. */
  lemma {:induction false} UnblockPrefix(s: Items, l: Place, n: nat, priority: map<Task, nat>)
    requires Placed(s) && l.Delayed? && n <= |At(s, l)|
    ensures var r := UnblockAll(s, At(s, l)[..n], priority);
            && At(r, l) == At(s, l)[n..]
            && At(r, Delayed(!l.second)) == At(s, Delayed(!l.second))
    decreases n
  {
    hide Placed, Unblock, At;
    if n > 0 {
      var p := Value(priority, At(s, l)[0]);
      UnblockHead(s, l, p);
      UnblockPrefix(Unblock(s, At(s, l)[0], p), l, n - 1, priority);
      assert At(s, l)[..n][1..] == At(Unblock(s, At(s, l)[0], p), l)[..n - 1];
    }
  }

  lemma UnblockHead(s: Items, l: Place, p: nat)
    requires Placed(s) && l.Delayed? && At(s, l) != []
    ensures var r := Unblock(s, At(s, l)[0], p);
            && Placed(r) && At(r, l) == At(s, l)[1..]
            && At(r, Delayed(!l.second)) == At(s, Delayed(!l.second))
  {
    var t := At(s, l)[0];
    assert t in At(s, l) && HasPlace(s, t, l);
    UnblockEffect(s, t, p);
    assert NoDup(At(s, l));
    WithoutHead(At(s, l));
    assert t in At(s, Delayed(!l.second)) <==> HasPlace(s, t, Delayed(!l.second));
  }
}
