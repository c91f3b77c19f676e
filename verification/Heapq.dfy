/** Binary min-heaps on a list, as heapq promises them: contents kept, least item at the root. */
module Heapq {

  /** A heap entry: rank at the last (re)build and sequence number; sequence numbers decide ties. */
  datatype Item = Item(rank: nat, id: nat)

  predicate Le(a: Item, b: Item) {
    a.rank < b.rank || (a.rank == b.rank && a.id <= b.id)
  }

  function Parent(k: nat): nat
    requires k > 0
  {
    (k - 1) / 2
  }

  ghost predicate HeapOrdered(h: seq<Item>) {
    forall k :: 0 < k < |h| ==> Le(h[Parent(k)], h[k])
  }

  lemma {:induction false} RootIsLeast(h: seq<Item>, k: nat)
    requires HeapOrdered(h) && k < |h|
    ensures Le(h[0], h[k])
  {
    if k > 0 {
      RootIsLeast(h, Parent(k));
    }
  }

  function Swap(h: seq<Item>, i: nat, j: nat): (r: seq<Item>)
    requires i < |h| && j < |h|
    ensures multiset(r) == multiset(h)
  {
    h[i := h[j]][j := h[i]]
  }

  // ----- Push -----

  /** Ordered except possibly between k and its parent; k's children already respect that parent. */
  ghost predicate OrderedBut(h: seq<Item>, k: nat) {
    && (forall j :: 0 < j < |h| && j != k ==> Le(h[Parent(j)], h[j]))
    && (forall j :: 0 < j < |h| && Parent(j) == k && k > 0 ==> Le(h[Parent(k)], h[j]))
  }

  function SiftUp(h: seq<Item>, k: nat): (r: seq<Item>)
    requires k < |h| && OrderedBut(h, k)
    ensures HeapOrdered(r) && multiset(r) == multiset(h)
    decreases k
  {
    if k == 0 || Le(h[Parent(k)], h[k]) then h
    else SiftUp(Swap(h, k, Parent(k)), Parent(k))
  }

  function Push(h: seq<Item>, x: Item): (r: seq<Item>)
    requires HeapOrdered(h)
    ensures HeapOrdered(r) && multiset(r) == multiset(h) + multiset{x}
  {
    SiftUp(h + [x], |h|)
  }

  function Heapify(s: seq<Item>): (r: seq<Item>)
    ensures HeapOrdered(r) && multiset(r) == multiset(s)
    decreases |s|
  {
    if s == [] then []
    else
      assert s == s[..|s| - 1] + [s[|s| - 1]];
      Push(Heapify(s[..|s| - 1]), s[|s| - 1])
  }

  // ----- Pop -----

  /** Ordered except possibly between k and its children, which respect k's parent. */
  ghost predicate OrderedBelow(h: seq<Item>, k: nat) {
    && (forall j :: 0 < j < |h| && Parent(j) != k ==> Le(h[Parent(j)], h[j]))
    && (forall j :: 0 < j < |h| && Parent(j) == k && 0 < k < |h| ==> Le(h[Parent(k)], h[j]))
  }

  function LeastChild(h: seq<Item>, k: nat): (c: nat)
    requires 2 * k + 1 < |h|
    ensures k < c < |h| && Parent(c) == k
    ensures forall j :: 0 < j < |h| && Parent(j) == k ==> Le(h[c], h[j])
  {
    if 2 * k + 2 < |h| && !Le(h[2 * k + 1], h[2 * k + 2]) then 2 * k + 2 else 2 * k + 1
  }

  function SiftDown(h: seq<Item>, k: nat): (r: seq<Item>)
    requires k < |h| && OrderedBelow(h, k)
    ensures HeapOrdered(r) && multiset(r) == multiset(h)
    decreases |h| - k
  {
    if 2 * k + 1 >= |h| || Le(h[k], h[LeastChild(h, k)]) then h
    else SiftDown(Swap(h, k, LeastChild(h, k)), LeastChild(h, k))
  }

  /** What remains after the root is removed. */
  function Pop(h: seq<Item>): (rest: seq<Item>)
    requires |h| > 0 && HeapOrdered(h)
    ensures HeapOrdered(rest) && multiset(h) == multiset(rest) + multiset{h[0]}
    ensures |rest| == |h| - 1
  {
    var last := h[|h| - 1];
    assert h == h[..|h| - 1] + [last];
    if |h| == 1 then []
    else
      assert h[..|h| - 1] == [h[0]] + h[1..|h| - 1];
      var moved := [last] + h[1..|h| - 1];
      SameSize(SiftDown(moved, 0), moved);
      SiftDown(moved, 0)
  }

  lemma SameSize(a: seq<Item>, b: seq<Item>)
    requires multiset(a) == multiset(b)
    ensures |a| == |b|
  {
    assert |multiset(a)| == |a| && |multiset(b)| == |b|;
  }
}
