/** Facts about the sequences that stand for the contents of kernel lists. */
module Seqs {

  ghost predicate NoDup<T>(s: seq<T>) {
    forall i, j :: 0 <= i < j < |s| ==> s[i] != s[j]
  }

  /** `s` with `x` put in at position `p`. */
  function InsertAt<T>(s: seq<T>, p: nat, x: T): (r: seq<T>)
    requires p <= |s|
    ensures |r| == |s| + 1
  {
    seq(|s| + 1, k requires 0 <= k <= |s| => if k < p then s[k] else if k == p then x else s[k - 1])
  }

  /** `s` with the element at position `p` taken out. */
  function RemoveAt<T>(s: seq<T>, p: nat): (r: seq<T>)
    requires p < |s|
    ensures |r| == |s| - 1
  {
    seq(|s| - 1, k requires 0 <= k < |s| - 1 => if k < p then s[k] else s[k + 1])
  }

  /** First position of `x` in `s`, or the length of `s`. */
  function IndexOf<T(==)>(s: seq<T>, x: T): (p: nat)
    ensures p <= |s| && (p < |s| ==> s[p] == x)
    ensures x !in s[..p]
    ensures p == |s| <==> x !in s
  {
    if s == [] || s[0] == x then 0 else 1 + IndexOf(s[1..], x)
  }

  /** What is left of `s` when the first `x` is taken out of it. */
  function Without<T(==)>(s: seq<T>, x: T): (r: seq<T>)
    ensures |r| == if x in s then |s| - 1 else |s|
  {
    var p := IndexOf(s, x);
    if p < |s| then RemoveAt(s, p) else s
  }

  lemma WithoutMembers<T>(s: seq<T>, x: T)
    requires NoDup(s)
    ensures forall y :: y in Without(s, x) <==> y in s && y != x
    ensures NoDup(Without(s, x))
  {
    var p := IndexOf(s, x);
    if p < |s| {
      var r := Without(s, x);
      forall y | y in s && y != x
        ensures y in r
      {
        var k :| 0 <= k < |s| && s[k] == y;
        assert r[if k < p then k else k - 1] == y;
      }
    }
  }

  lemma InsertMembers<T>(s: seq<T>, p: nat, x: T)
    requires p <= |s|
    ensures forall y :: y in InsertAt(s, p, x) <==> y == x || y in s
    ensures NoDup(s) && x !in s ==> NoDup(InsertAt(s, p, x))
  {
    var r := InsertAt(s, p, x);
    assert r[p] == x;
    forall y | y in s
      ensures y in r
    {
      var k :| 0 <= k < |s| && s[k] == y;
      assert r[if k < p then k else k + 1] == y;
    }
  }

  /** Taking out the element at position `p` of a duplicate-free sequence. */
  lemma WithoutAt<T>(s: seq<T>, p: nat)
    requires p < |s| && NoDup(s)
    ensures Without(s, s[p]) == RemoveAt(s, p)
  {
    var q := IndexOf(s, s[p]);
    assert q == p;
  }

  /** First position whose value is larger than `v`. */
  function InsertPosition(values: seq<nat>, v: nat): (p: nat)
    ensures p <= |values|
    ensures forall k :: 0 <= k < p ==> values[k] <= v
    ensures p < |values| ==> v < values[p]
  {
    if values == [] || v < values[0] then 0 else 1 + InsertPosition(values[1..], v)
  }

  lemma PositionUnique(values: seq<nat>, v: nat, p: nat)
    requires p <= |values|
    requires forall k :: 0 <= k < p ==> values[k] <= v
    requires p < |values| ==> v < values[p]
    ensures p == InsertPosition(values, v)
  {
  }
}
