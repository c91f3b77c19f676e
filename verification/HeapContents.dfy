/** The sequence numbers stored in a heap: distinct, and kept by rebuilding, filtering and re-ranking. */
module HeapContents {
  import opened Common
  import opened Requests
  import opened Heapq

  function Ids(h: seq<Item>): set<nat> {
    set x | x in h :: x.id
  }

  lemma IdsNext(h: seq<Item>, i: nat)
    requires i < |h|
    ensures Ids(h[..i + 1]) == Ids(h[..i]) + {h[i].id} && h[i].id in Ids(h)
  {
    assert h[..i + 1] == h[..i] + [h[i]];
  }

  ghost predicate Distinct(h: seq<Item>) {
    forall i, j :: 0 <= i < j < |h| ==> h[i].id != h[j].id
  }

  ghost predicate DistinctBag(m: multiset<Item>) {
    && (forall x :: x in m ==> m[x] == 1)
    && (forall x, y :: x in m && y in m && x.id == y.id ==> x == y)
  }

  lemma {:induction false} BagOfDistinct(h: seq<Item>)
    requires Distinct(h)
    ensures DistinctBag(multiset(h))
    decreases |h|
  {
    if h != [] {
      var n := |h| - 1;
      assert h == h[..n] + [h[n]];
      BagOfDistinct(h[..n]);
      assert multiset(h) == multiset(h[..n]) + multiset{h[n]};
      assert forall x :: x in h[..n] ==> x.id != h[n].id;
    }
  }

  lemma DistinctOfBag(h: seq<Item>)
    requires DistinctBag(multiset(h))
    ensures Distinct(h)
  {
    forall i, j | 0 <= i < j < |h| ensures h[i].id != h[j].id {
      assert h == h[..j] + [h[j]] + h[j + 1..];
      assert h[j] in multiset(h) && h[i] in multiset(h);
      assert multiset(h)[h[j]] >= multiset(h[..j])[h[j]] + 1;
      assert h[j] !in multiset(h[..j]);
      assert h[i] in h[..j];
    }
  }

  /** Rebuilding a heap keeps the contents, hence distinctness. */
  lemma Rebuilt(a: seq<Item>, b: seq<Item>)
    requires Distinct(a) && multiset(a) == multiset(b)
    ensures Distinct(b) && Ids(b) == Ids(a) && |b| == |a|
    ensures forall x :: x in b <==> x in a
  {
    BagOfDistinct(a);
    DistinctOfBag(b);
    SameSize(a, b);
    forall x ensures x in b <==> x in a {
      assert x in multiset(a) <==> x in multiset(b);
    }
  }

  lemma {:induction false} CountIds(h: seq<Item>)
    requires Distinct(h)
    ensures |Ids(h)| == |h|
    decreases |h|
  {
    if h != [] {
      var n := |h| - 1;
      assert h == h[..n] + [h[n]];
      CountIds(h[..n]);
      assert Ids(h) == Ids(h[..n]) + {h[n].id};
      assert h[n].id !in Ids(h[..n]);
    }
  }

  lemma Pushed(h: seq<Item>, x: Item)
    requires HeapOrdered(h) && Distinct(h) && x.id !in Ids(h)
    ensures Distinct(Push(h, x)) && Ids(Push(h, x)) == Ids(h) + {x.id}
    ensures forall y :: y in Push(h, x) <==> y in h || y == x
  {
    assert multiset(h + [x]) == multiset(Push(h, x));
    Rebuilt(h + [x], Push(h, x));
  }

  lemma Removed(h: seq<Item>, x: Item, rest: seq<Item>)
    requires Distinct(h) && multiset(h) == multiset(rest) + multiset{x}
    ensures Distinct(rest) && x in h && (forall y :: y in rest <==> y in h && y != x)
  {
    BagOfDistinct(h);
    var m := multiset(rest);
    assert x in multiset(h) && m[x] == 0;
    assert forall y :: y in m ==> y in multiset(h) && m[y] == 1;
    DistinctOfBag(rest);
    forall y ensures y in rest <==> y in h && y != x {
      assert y in m <==> y in multiset(h) && y != x;
    }
  }

  lemma Popped(h: seq<Item>)
    requires |h| > 0 && HeapOrdered(h) && Distinct(h)
    ensures Distinct(Pop(h)) && Ids(Pop(h)) == Ids(h) - {h[0].id}
    ensures forall y :: y in Pop(h) ==> y in h
  {
    Removed(h, h[0], Pop(h));
    RemovedIds(h, h[0], Pop(h));
  }

  lemma RemovedIds(h: seq<Item>, x: Item, rest: seq<Item>)
    requires Distinct(h) && x in h && (forall y :: y in rest <==> y in h && y != x)
    ensures Ids(rest) == Ids(h) - {x.id}
  {
  }

  // ----- Filtering -----

  /** The items whose request is in `live`, in list order. */
  function Kept(h: seq<Item>, live: set<nat>): (k: seq<Item>)
    ensures |k| <= |h|
    ensures |k| == |h| ==> k == h
    decreases |h|
  {
    if h == [] then []
    else
      var n := |h| - 1;
      assert h == h[..n] + [h[n]];
      Kept(h[..n], live) + (if h[n].id in live then [h[n]] else [])
  }

  lemma KeptNext(h: seq<Item>, i: nat, live: set<nat>)
    requires i < |h|
    ensures Kept(h[..i + 1], live) == Kept(h[..i], live) + (if h[i].id in live then [h[i]] else [])
  {
    assert h[..i + 1][..i] == h[..i] && h[..i + 1][i] == h[i];
  }

  lemma {:induction false} KeptItems(h: seq<Item>, live: set<nat>)
    requires Distinct(h)
    ensures Distinct(Kept(h, live))
    ensures forall x :: x in Kept(h, live) <==> x in h && x.id in live
    ensures Ids(Kept(h, live)) == Ids(h) * live
    decreases |h|
  {
    if h != [] {
      var n := |h| - 1;
      var k := Kept(h[..n], live);
      assert h == h[..n] + [h[n]];
      KeptItems(h[..n], live);
      assert forall x :: x in k ==> x.id != h[n].id by {
        assert forall x :: x in h[..n] ==> x.id != h[n].id;
      }
    }
  }

  // ----- Re-ranking -----

  /** The items with their ranks aged to `now`. */
  function Aged(h: seq<Item>, t: Table, now: int, interval: int): (a: seq<Item>)
    requires Ids(h) <= t.Keys
    ensures |a| == |h|
    ensures forall k :: 0 <= k < |h| ==> a[k] == Item(AgedRank(t[h[k].id], now, interval), h[k].id)
    decreases |h|
  {
    if h == [] then []
    else
      var n := |h| - 1;
      assert h[n].id in Ids(h);
      Aged(h[..n], t, now, interval) + [Item(AgedRank(t[h[n].id], now, interval), h[n].id)]
  }

  lemma AgedNext(h: seq<Item>, i: nat, t: Table, now: int, interval: int)
    requires i < |h| && Ids(h) <= t.Keys
    ensures Ids(h[..i]) <= t.Keys && Ids(h[..i + 1]) <= t.Keys && h[i].id in t
    ensures Aged(h[..i + 1], t, now, interval)
         == Aged(h[..i], t, now, interval) + [Item(AgedRank(t[h[i].id], now, interval), h[i].id)]
  {
    IdsNext(h, i);
    assert h[..i + 1][..i] == h[..i] && h[..i + 1][i] == h[i];
  }

  lemma AgedItems(h: seq<Item>, t: Table, now: int, interval: int)
    requires Ids(h) <= t.Keys && Distinct(h)
    ensures var a := Aged(h, t, now, interval); Distinct(a) && Ids(a) == Ids(h)
  {
    var a := Aged(h, t, now, interval);
    forall id | id in Ids(h) ensures id in Ids(a) {
      var k :| 0 <= k < |h| && h[k].id == id;
      assert a[k].id == id;
    }
    forall id | id in Ids(a) ensures id in Ids(h) {
      var k :| 0 <= k < |a| && a[k].id == id;
      assert h[k].id == id;
    }
  }

  ghost predicate RanksCurrent(h: seq<Item>, t: Table, now: int, interval: int) {
    forall x :: x in h ==> x.id in t && x.rank == AgedRank(t[x.id], now, interval)
  }

  lemma AgedCurrent(h: seq<Item>, t: Table, now: int, interval: int)
    requires Ids(h) <= t.Keys
    ensures RanksCurrent(Aged(h, t, now, interval), t, now, interval)
  {
    var a := Aged(h, t, now, interval);
    forall x | x in a ensures x.id in t && x.rank == AgedRank(t[x.id], now, interval) {
      var k :| 0 <= k < |a| && a[k] == x;
      assert h[k].id in Ids(h);
    }
  }

  /** With current ranks, the root of the heap is the request to serve first. */
  lemma RootIsFirst(h: seq<Item>, t: Table, now: int, interval: int)
    requires |h| > 0 && HeapOrdered(h) && Distinct(h) && Ids(h) <= t.Keys
    requires RanksCurrent(h, t, now, interval)
    ensures IsFirst(t, h[0].id, Ids(h), now, interval)
  {
    forall j | j in Ids(h) && j != h[0].id ensures Before(t, h[0].id, j, now, interval) {
      var k :| 0 <= k < |h| && h[k].id == j;
      RootIsLeast(h, k);
      assert h[0] in h && h[k] in h;
    }
  }
}
