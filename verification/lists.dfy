/**
 * The kernel's list (list.c, list.h): a circular doubly linked list with an end
 * marker and a floating index, kept in place on the heap.  `Items` is the
 * abstract value in list order, and `Ring` is the same list read from the index,
 * which is the order in which a walk returns the owners.
 */
module Lists {
  import opened Seqs

  class ListItem {
    var value: nat
    var next: ListItem?
    var previous: ListItem?
    var owner: nat
    var container: List?

    constructor (value: nat, owner: nat)
      ensures this.value == value && this.owner == owner && container == null
    {
      this.value, this.owner := value, owner;
      next, previous, container := null, null, null;
    }
  }

  ghost function After(s: seq<ListItem>, k: nat): ListItem
    requires k < |s|
  {
    if k + 1 < |s| then s[k + 1] else s[0]
  }

  ghost function Before(s: seq<ListItem>, k: nat): ListItem
    requires k < |s|
  {
    if k > 0 then s[k - 1] else s[|s| - 1]
  }

  /** The nodes after the end marker, read from behind position `at` and round to it. */
  ghost function RingFrom(nodes: seq<ListItem>, at: nat): (r: seq<ListItem>)
    requires at < |nodes|
    ensures |r| == |nodes| - 1
  {
    seq(|nodes| - 1, k requires 0 <= k < |nodes| - 1 =>
      if at + 1 + k < |nodes| then nodes[at + 1 + k] else nodes[at + 2 + k - |nodes|])
  }

  class List {
    const maxDelay: nat
    const end: ListItem
    var numberOfItems: nat
    var index: ListItem
    ghost var nodes: seq<ListItem>  // the end marker, then the items in list order
    ghost var at: nat               // position of the index in `nodes`

    /** Every node points at its neighbours, and the last node closes the circle. */
    ghost predicate Linked()
      reads this, nodes
    {
      && (forall k {:trigger nodes[k].next} :: 0 <= k < |nodes| ==> nodes[k].next == After(nodes, k))
      && (forall k {:trigger nodes[k].previous} :: 0 <= k < |nodes| ==> nodes[k].previous == Before(nodes, k))
    }

    ghost predicate Valid()
      reads this, nodes
    {
      && nodes != [] && nodes[0] == end
      && NoDup(nodes)
      && Linked()
      && numberOfItems == |nodes| - 1
      && at < |nodes| && index == nodes[at]
      && nodes[0].value == maxDelay && nodes[0].container == null
      && (forall k :: 0 < k < |nodes| ==> nodes[k].container == this && nodes[k].value <= maxDelay)
    }

    ghost function Items(): seq<ListItem>
      reads this
      requires nodes != []
    {
      nodes[1..]
    }

    /** The items in the order in which the walk will return them. */
    ghost function Ring(): seq<ListItem>
      reads this
      requires at < |nodes|
    {
      RingFrom(nodes, at)
    }

    ghost function Values(): (vs: seq<nat>)
      reads this, nodes
      requires nodes != []
      ensures |vs| == |nodes| - 1
      ensures forall k :: 0 <= k < |vs| ==> vs[k] == nodes[k + 1].value
    {
      seq(|nodes| - 1, i requires 0 <= i < |nodes| - 1 reads this, nodes => nodes[i + 1].value)
    }

    constructor (maxDelay: nat)
      ensures Valid() && Items() == [] && this.maxDelay == maxDelay
      ensures fresh(end)
    {
      var marker := new ListItem(maxDelay, 0);
      this.maxDelay, end, index := maxDelay, marker, marker;
      numberOfItems, nodes, at := 0, [marker], 0;
      new;
      end.next, end.previous := end, end;
    }

    /** The four assignments that insertion makes between two neighbours. */
    static method Link(before: ListItem, item: ListItem, after: ListItem)
      requires item != before && item != after
      modifies before`next, item`next, item`previous, after`previous
      ensures before.next == item && item.previous == before
      ensures item.next == after && after.previous == item
    {
      item.next := after;
      item.previous := before;
      after.previous := item;
      before.next := item;
    }

    /** The two assignments that removal makes. */
    static method Unlink(before: ListItem, after: ListItem)
      modifies before`next, after`previous
      ensures before.next == after && after.previous == before
    {
      after.previous := before;
      before.next := after;
    }

    /** Once linked after position `p`, an item makes the circle one node longer. */
    lemma Relinked(was: seq<ListItem>, p: nat, item: ListItem)
      requires p < |was| && item !in was && NoDup(was)
      requires nodes == InsertAt(was, p + 1, item)
      requires was[p].next == item && item.previous == was[p]
      requires item.next == After(was, p) && After(was, p).previous == item
      requires forall k {:trigger was[k].next} :: 0 <= k < |was| && k != p ==> was[k].next == After(was, k)
      requires forall k {:trigger was[k].previous} :: 0 <= k < |was| && was[k] != After(was, p) ==> was[k].previous == Before(was, k)
      ensures Linked() && NoDup(nodes)
    {
    }

    /** The tail both insertions share: `item` goes in behind the node `it`. */
    method Splice(it: ListItem, item: ListItem, ghost p: nat)
      requires Valid() && p < |nodes| && nodes[p] == it
      requires item !in nodes && item.container == null && item.value <= maxDelay
      modifies this`numberOfItems, this`nodes, this`at
      modifies nodes`next, nodes`previous
      modifies item`next, item`previous, item`container
      ensures Valid() && item.container == this
      ensures nodes == InsertAt(old(nodes), p + 1, item)
      ensures at == if p < old(at) then old(at) + 1 else old(at)
    {
      ghost var was := nodes;
      assert it.next == After(nodes, p) && it.next in was;
      Link(it, item, it.next);
      item.container := this;
      numberOfItems := numberOfItems + 1;

      nodes := InsertAt(was, p + 1, item);
      if p < at { at := at + 1; }
      Relinked(was, p, item);
    }

    method InsertEnd(item: ListItem)
      requires Valid()
      requires item !in nodes && item.container == null && item.value <= maxDelay
      modifies this`numberOfItems, this`index, this`nodes, this`at
      modifies nodes`next, nodes`previous
      modifies item`next, item`previous, item`container
      ensures Valid() && item.container == this
      ensures Ring() == old(Ring()) + [item]
      ensures Items() == InsertAt(old(Items()), old(at), item) && at == old(at) + 1
    {
      InsertedInView(nodes, at, item);
      InsertedInRing(nodes, at, item);
      ghost var p := at;
      Splice(index, item, p);
      assert nodes[p + 1] == item;
      index := item;
      at := p + 1;
    }

    method Insert(item: ListItem)
      requires Valid()
      requires item !in nodes && item.container == null && item.value <= maxDelay
      modifies this`numberOfItems, this`nodes, this`at
      modifies nodes`next, nodes`previous
      modifies item`next, item`previous, item`container
      ensures Valid() && item.container == this && index == old(index)
      ensures Items() == InsertAt(old(Items()), InsertPosition(old(Values()), item.value), item)
    {
      var it: ListItem;
      ghost var p: nat;
      it, p := FindPosition(item.value);
      InsertedInView(nodes, p, item);
      Splice(it, item, p);
    }

    /** The search of an insertion; the end marker stops it. */
    method FindPosition(v: nat) returns (it: ListItem, ghost p: nat)
      requires Valid() && v <= maxDelay
      ensures p < |nodes| && it == nodes[p]
      ensures p == InsertPosition(Values(), v)
    {
      if v == maxDelay {
        it := end.previous;
        p := |nodes| - 1;
      } else {
        it := end;
        p := 0;
        while it.next.value <= v
          invariant p < |nodes| && it == nodes[p]
          invariant forall k :: 0 < k <= p ==> nodes[k].value <= v
          decreases |nodes| - p
        {
          it := it.next;
          p := p + 1;
        }
      }
      PositionUnique(Values(), v, p);
    }

    /** Takes the next owner in turn, skipping the end marker. */
    method NextOwner() returns (owner: nat)
      requires Valid() && Items() != []
      modifies this`index, this`at
      ensures Valid()
      ensures Ring() == old(Ring()[1..] + Ring()[..1])
      ensures owner == old(Ring()[0]).owner
    {
      ghost var ring := Ring();
      assert index.next == After(nodes, at);
      index := index.next;
      at := if at + 1 < |nodes| then at + 1 else 0;
      if index == end {
        assert at == 0 && nodes[0].next == nodes[1];
        index := index.next;
        at := 1;
      }
      owner := index.owner;
    }

    method HeadOwner() returns (owner: nat, value: nat)
      requires Valid() && Items() != []
      ensures owner == Items()[0].owner && value == Items()[0].value
    {
      assert nodes[0].next == nodes[1];
      owner, value := end.next.owner, end.next.value;
    }

    /** Taking out the node at `p` closes the gap it leaves. */
    lemma Unlinked(was: seq<ListItem>, p: nat)
      requires 0 < p < |was| && NoDup(was)
      requires nodes == RemoveAt(was, p)
      requires was[p - 1].next == After(was, p) && After(was, p).previous == was[p - 1]
      requires forall k {:trigger was[k].next} :: 0 <= k < |was| && k != p - 1 ==> was[k].next == After(was, k)
      requires forall k {:trigger was[k].previous} :: 0 <= k < |was| && was[k] != After(was, p) ==> was[k].previous == Before(was, k)
      ensures Linked() && NoDup(nodes)
    {
    }

    /** The pointer work of a removal, with the index moved back off the item. */
    method Detach(item: ListItem, ghost p: nat)
      requires Valid() && 0 < p < |nodes| && nodes[p] == item
      modifies this`numberOfItems, this`index, this`nodes, this`at
      modifies nodes`next, nodes`previous, item`container
      ensures Valid() && item.container == null
      ensures nodes == RemoveAt(old(nodes), p)
      ensures at == if p <= old(at) then old(at) - 1 else old(at)
    {
      ghost var was, pos := nodes, at;
      assert item.previous == was[p - 1] && item.next == After(was, p);
      Unlink(item.previous, item.next);
      assert item.previous == was[p - 1] && (index == item <==> p == pos);
      if index == item {
        index := item.previous;
      }
      item.container := null;
      numberOfItems := numberOfItems - 1;

      nodes := RemoveAt(was, p);
      if p <= pos { at := pos - 1; }
      Unlinked(was, p);
    }

    /** The same, seen in list order and in walk order. */
    method TakeOut(item: ListItem)
      requires Valid() && item in Items()
      modifies this`numberOfItems, this`index, this`nodes, this`at
      modifies nodes`next, nodes`previous, item`container
      ensures Valid() && item.container == null
      ensures Items() == Without(old(Items()), item)
      ensures Ring() == Without(old(Ring()), item)
      ensures old(at) == old(numberOfItems) ==> at == numberOfItems
    {
      ghost var was, pos := nodes, at;
      ghost var p := 1 + IndexOf(was[1..], item);
      Detach(item, p);
      RemovedFromItems(was, p);
      RemovedFromRing(was, pos, p);
    }
  }

  /** Removal needs only the item: the list is found through the container. */
  method Remove(item: ListItem)
    requires item.container != null && item.container.Valid() && item in item.container.Items()
    modifies item.container`numberOfItems, item.container`index, item.container`nodes, item.container`at
    modifies item.container.nodes`next, item.container.nodes`previous, item`container
    ensures item.container == null
    ensures old(item.container).Valid()
    ensures old(item.container).Items() == Without(old(item.container.Items()), item)
    ensures old(item.container).Ring() == Without(old(item.container.Ring()), item)
  {
    item.container.TakeOut(item);
  }

  /** How an insertion after position `p` looks in list order. */
  lemma InsertedInView(was: seq<ListItem>, p: nat, item: ListItem)
    requires p < |was|
    ensures InsertAt(was, p + 1, item)[1..] == InsertAt(was[1..], p, item)
  {
  }

  lemma InsertedInRing(was: seq<ListItem>, at: nat, item: ListItem)
    requires at < |was|
    ensures RingFrom(InsertAt(was, at + 1, item), at + 1) == RingFrom(was, at) + [item]
  {
  }

  /** How a removal looks in list order and in walk order. */
  lemma RemovedFromItems(was: seq<ListItem>, p: nat)
    requires NoDup(was) && 0 < p < |was|
    ensures RemoveAt(was, p)[1..] == Without(was[1..], was[p])
  {
    WithoutAt(was[1..], p - 1);
  }

  lemma RemovedFromRing(was: seq<ListItem>, at: nat, p: nat)
    requires NoDup(was) && at < |was| && 0 < p < |was|
    ensures RingFrom(RemoveAt(was, p), if p <= at then at - 1 else at) == Without(RingFrom(was, at), was[p])
  {
    RingNoDup(was, at);
    if p <= at {
      RingWithoutPassed(was, at, p);
      assert RingFrom(was, at)[|was| - at - 2 + p] == was[p];
      WithoutAt(RingFrom(was, at), |was| - at - 2 + p);
    } else {
      RingWithoutComing(was, at, p);
      WithoutAt(RingFrom(was, at), p - at - 1);
    }
  }

  lemma RingWithoutPassed(was: seq<ListItem>, at: nat, p: nat)
    requires 0 < p <= at < |was|
    ensures RingFrom(RemoveAt(was, p), at - 1) == RemoveAt(RingFrom(was, at), |was| - at - 2 + p)
  {
    var l, r := RingFrom(RemoveAt(was, p), at - 1), RemoveAt(RingFrom(was, at), |was| - at - 2 + p);
    forall k | 0 <= k < |l|
      ensures l[k] == r[k]
    {
      if at + k + 1 < |was| {
        assert l[k] == was[at + 1 + k] == r[k];
      }
    }
  }

  lemma RingWithoutComing(was: seq<ListItem>, at: nat, p: nat)
    requires at < p < |was|
    ensures RingFrom(RemoveAt(was, p), at) == RemoveAt(RingFrom(was, at), p - at - 1)
  {
  }

  lemma RingNoDup(nodes: seq<ListItem>, at: nat)
    requires NoDup(nodes) && at < |nodes|
    ensures NoDup(RingFrom(nodes, at))
  {
  }

  /** Putting an item in and taking it out again restores the list. */
  lemma InsertThenRemove(items: seq<ListItem>, p: nat, item: ListItem)
    requires p <= |items| && item !in items
    ensures Without(InsertAt(items, p, item), item) == items
  {
    var r := InsertAt(items, p, item);
    assert r[p] == item;
    assert IndexOf(r, item) == p;
  }

  /** A list that is only appended to and removed from keeps its index on the last item,
      so list order and walk order are the same. */
  lemma UnwalkedOrder(nodes: seq<ListItem>)
    requires nodes != []
    ensures RingFrom(nodes, |nodes| - 1) == nodes[1..]
  {
  }
}
