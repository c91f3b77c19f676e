/** The bounded history of admission decisions and its index by correlation id. */
module DecisionStore {
  import opened Common

  datatype Record = Record(correlationId: string, serial: nat, rejects: bool)

  /** `recent` is the history, newest first. */
  datatype Store = Store(recent: seq<Record>, index: map<string, Record>)

  const EMPTY := Store([], map[])

  function Oldest(s: Store): Record
    requires s.recent != []
  {
    s.recent[|s.recent| - 1]
  }

  /** At the limit the oldest decision leaves both the history and, by its id, the index. */
  function Add(limit: nat, s: Store, d: Record): Store
    requires limit > 0
  {
    if |s.recent| == limit then
      Store([d] + s.recent[..limit - 1], (s.index - {Oldest(s).correlationId})[d.correlationId := d])
    else
      Store([d] + s.recent, s.index[d.correlationId := d])
  }

  function AddAll(limit: nat, ds: seq<Record>): Store
    requires limit > 0
  {
    if ds == [] then EMPTY else Add(limit, AddAll(limit, ds[..|ds| - 1]), ds[|ds| - 1])
  }

  lemma AddAllNext(limit: nat, ds: seq<Record>, d: Record)
    requires limit > 0
    ensures AddAll(limit, ds + [d]) == Add(limit, AddAll(limit, ds), d)
  {
    assert (ds + [d])[..|ds|] == ds;
  }

  /** The newest retained decision with the id. */
  function Newest(h: seq<Record>, id: string): Option<Record> {
    if h == [] then None else if h[0].correlationId == id then Some(h[0]) else Newest(h[1..], id)
  }

  ghost predicate Retains(h: seq<Record>, id: string) {
    exists k :: 0 <= k < |h| && h[k].correlationId == id
  }

  class RuntimeStateStore {
    const limit: nat
    var recentDecisions: seq<Record>
    var decisionByCorrelationId: map<string, Record>
    var rejected: nat
    ghost var recorded: seq<Record>

    ghost function View(): Store
      reads this
    {
      Store(recentDecisions, decisionByCorrelationId)
    }

    /** History and index agree, and are what recording every decision so far leaves. */
    ghost predicate Valid()
      reads this
    {
      && Agrees(limit, View())
      && (if limit > 0 then View() == AddAll(limit, recorded) else View() == EMPTY)
    }

    constructor (limit: nat)
      ensures Valid() && View() == EMPTY && recorded == [] && rejected == 0 && this.limit == limit
    {
      this.limit := limit;
      recentDecisions, decisionByCorrelationId, rejected, recorded := [], map[], 0, [];
    }

    /** Evicts the oldest decision at the limit and stores the new one. */
    method StoreDecision(d: Record)
      requires 0 < limit && |recentDecisions| <= limit
      modifies `recentDecisions, `decisionByCorrelationId
      ensures View() == Add(limit, old(View()), d)
    {
      var keep := |recentDecisions|;
      if |recentDecisions| == limit {
        var oldest := recentDecisions[|recentDecisions| - 1];
        decisionByCorrelationId := decisionByCorrelationId - {oldest.correlationId};
        keep := limit - 1;
      }
      recentDecisions := [d] + recentDecisions[..keep];
      decisionByCorrelationId := decisionByCorrelationId[d.correlationId := d];
    }

    /** With a zero limit the oldest entry of an empty history is asked for, which fails. */
    method RecordDecision(d: Record) returns (ok: bool)
      requires Valid()
      modifies this
      ensures Valid()
      ensures ok == (limit > 0) && recorded == if ok then old(recorded) + [d] else old(recorded)
      ensures ok ==> View() == Add(limit, old(View()), d)
      ensures ok ==> rejected == old(rejected) + (if d.rejects then 1 else 0)
      ensures !ok ==> View() == old(View()) && rejected == old(rejected)
    {
      if |recentDecisions| == limit && recentDecisions == [] {
        return false;
      }
      AddAgrees(limit, View(), d);
      AddAllNext(limit, recorded, d);
      StoreDecision(d);
      recorded := recorded + [d];
      if d.rejects {
        rejected := rejected + 1;
      }
      ok := true;
    }

    /** A hit is the newest retained decision with the id. While the lookup is complete, a miss means
        that no retained decision has it. */
    method DecisionForCorrelationId(id: string) returns (found: Option<Record>)
      requires Valid()
      ensures found.Some? ==> found == Newest(recentDecisions, id)
      ensures Complete(View()) ==> found == Newest(recentDecisions, id)
    {
      found := if id in decisionByCorrelationId then Some(decisionByCorrelationId[id]) else None;
      NewestSome(recentDecisions, id);
      assert Agrees(limit, View());
    }
  }

  // ----- The index against the history -----

  lemma {:induction false} NewestSome(h: seq<Record>, id: string)
    ensures Newest(h, id).Some? <==> Retains(h, id)
    ensures Newest(h, id).Some? ==> Newest(h, id).value in h && Newest(h, id).value.correlationId == id
  {
    if h != [] {
      NewestSome(h[1..], id);
      if h[0].correlationId != id && Retains(h, id) {
        var k :| 0 <= k < |h| && h[k].correlationId == id;
        assert h[1..][k - 1] == h[k];
      }
    }
  }

  /** Dropping the last entry changes the newest only for an id that only the last entry has. */
  lemma {:induction false} NewestWithoutLast(h: seq<Record>, id: string)
    requires h != []
    ensures var front := h[..|h| - 1];
      && (Retains(front, id) ==> Newest(front, id) == Newest(h, id))
      && (h[|h| - 1].correlationId != id ==> Newest(front, id) == Newest(h, id))
  {
    var n := |h| - 1;
    if n > 0 {
      assert h[1..][..n - 1] == h[..n][1..];
      NewestWithoutLast(h[1..], id);
      if h[0].correlationId != id && Retains(h[..n], id) {
        var k :| 0 <= k < n && h[..n][k].correlationId == id;
        assert h[..n][1..][k - 1].correlationId == id;
      }
    }
  }

  /** Every lookup hit is the newest retained decision with that id; neither side exceeds the limit. */
  ghost predicate Agrees(limit: nat, s: Store) {
    && |s.recent| <= limit && |s.index| <= limit
    && forall id :: id in s.index ==> Newest(s.recent, id) == Some(s.index[id])
  }

  lemma IndexIsSmall(s: Store)
    requires forall id :: id in s.index ==> Newest(s.recent, id) == Some(s.index[id])
    ensures |s.index| <= |s.recent|
  {
    var ids := RetainedIds(s.recent);
    forall id | id in s.index ensures id in ids {
      NewestSome(s.recent, id);
    }
    SubsetSize(s.index.Keys, ids);
    RetainedIdsSize(s.recent);
    assert |s.index| == |s.index.Keys|;
  }

  function RetainedIds(h: seq<Record>): set<string> {
    set r | r in h :: r.correlationId
  }

  lemma {:induction false} RetainedIdsSize(h: seq<Record>)
    ensures |RetainedIds(h)| <= |h|
  {
    if h != [] {
      RetainedIdsSize(h[1..]);
      assert RetainedIds(h) == {h[0].correlationId} + RetainedIds(h[1..]);
    }
  }

  lemma AddAgrees(limit: nat, s: Store, d: Record)
    requires limit > 0 && Agrees(limit, s)
    ensures Agrees(limit, Add(limit, s, d))
  {
    var t := Add(limit, s, d);
    assert t.recent[1..] == if |s.recent| == limit then s.recent[..limit - 1] else s.recent;
    forall id | id in t.index ensures Newest(t.recent, id) == Some(t.index[id]) {
      if id != d.correlationId && |s.recent| == limit {
        NewestWithoutLast(s.recent, id);
      }
    }
    IndexIsSmall(t);
  }

  lemma {:induction false} HitsAreNewest(limit: nat, ds: seq<Record>)
    requires limit > 0
    ensures Agrees(limit, AddAll(limit, ds))
  {
    if ds != [] {
      HitsAreNewest(limit, ds[..|ds| - 1]);
      AddAgrees(limit, AddAll(limit, ds[..|ds| - 1]), ds[|ds| - 1]);
    }
  }

  /** Every retained decision's id can be looked up. */
  ghost predicate Complete(s: Store) {
    forall k :: 0 <= k < |s.recent| ==> s.recent[k].correlationId in s.index
  }

  /** The evicted id is carried by another retained decision and is not the new one's. */
  ghost predicate EvictsSharedId(limit: nat, s: Store, d: Record)
    requires limit > 0
  {
    && |s.recent| == limit && Oldest(s).correlationId != d.correlationId
    && Retains(s.recent[..limit - 1], Oldest(s).correlationId)
  }

  /** Recording keeps the lookup complete if and only if it does not evict an id that another retained
      decision still carries. */
  lemma CompleteIff(limit: nat, s: Store, d: Record)
    requires limit > 0 && |s.recent| <= limit && Complete(s)
    ensures Complete(Add(limit, s, d)) <==> !EvictsSharedId(limit, s, d)
  {
    var t := Add(limit, s, d);
    if |s.recent| == limit {
      var front := s.recent[..limit - 1];
      assert forall k :: 0 < k < |t.recent| ==> t.recent[k] == s.recent[k - 1];
      if EvictsSharedId(limit, s, d) {
        var k :| 0 <= k < |front| && front[k].correlationId == Oldest(s).correlationId;
        assert t.recent[k + 1].correlationId !in t.index;
      } else {
        forall k | 0 <= k < |t.recent| ensures t.recent[k].correlationId in t.index {
          if k > 0 {
            assert front[k - 1].correlationId == t.recent[k].correlationId;
          }
        }
      }
    } else {
      assert forall k :: 0 < k < |t.recent| ==> t.recent[k] == s.recent[k - 1];
    }
  }

  /** The history is the tail of the run, newest first. */
  lemma {:induction false} HistoryIsTail(limit: nat, ds: seq<Record>)
    requires limit > 0
    ensures var h := AddAll(limit, ds).recent;
      |h| == Min(|ds|, limit) && forall k :: 0 <= k < |h| ==> h[k] == ds[|ds| - 1 - k]
  {
    if ds != [] {
      HistoryIsTail(limit, ds[..|ds| - 1]);
    }
  }

  ghost predicate CompleteThroughout(limit: nat, ds: seq<Record>)
    requires limit > 0
  {
    forall n :: 0 <= n <= |ds| ==> Complete(AddAll(limit, ds[..n]))
  }

  /** Whenever an id recurs while its earlier decision is still retained, the decision whose recording
      evicts the earlier one carries that id again. */
  ghost predicate NoRecurrenceLost(limit: nat, ds: seq<Record>) {
    forall i: nat, k: nat :: Recurs(limit, ds, i, k) ==> ds[i + limit].correlationId == ds[i].correlationId
  }

  /** Decision i shares its id with a later decision k that is retained when i is evicted. */
  predicate Recurs(limit: nat, ds: seq<Record>, i: nat, k: nat) {
    i < k < i + limit < |ds| && ds[i].correlationId == ds[k].correlationId
  }

  ghost predicate EvictionLoses(limit: nat, ds: seq<Record>, i: nat) {
    && i + limit < |ds| && ds[i + limit].correlationId != ds[i].correlationId
    && exists k: nat :: Recurs(limit, ds, i, k)
  }

  lemma RetainsIff(h: seq<Record>, before: seq<Record>, limit: nat, id: string)
    requires 0 < limit == |h| <= |before| && forall k :: 0 <= k < |h| ==> h[k] == before[|before| - 1 - k]
    ensures Retains(h[..limit - 1], id)
       <==> exists k :: |before| - limit < k < |before| && before[k].correlationId == id
  {
    var n := |before|;
    if Retains(h[..limit - 1], id) {
      var k :| 0 <= k < limit - 1 && h[..limit - 1][k].correlationId == id;
      assert before[n - 1 - k].correlationId == id;
    }
    if k :| n - limit < k < n && before[k].correlationId == id {
      assert h[..limit - 1][n - 1 - k].correlationId == id;
    }
  }

  /** Recording the next decision evicts a shared id exactly when the run says so. */
  lemma EvictsIff(limit: nat, before: seq<Record>, d: Record)
    requires limit > 0
    ensures EvictsSharedId(limit, AddAll(limit, before), d)
       <==> |before| >= limit && EvictionLoses(limit, before + [d], |before| - limit)
  {
    var n := |before|;
    var s := AddAll(limit, before);
    HistoryIsTail(limit, before);
    if n >= limit {
      var ds, i := before + [d], n - limit;
      assert Oldest(s) == ds[i] && ds[i + limit] == d;
      RetainsIff(s.recent, before, limit, ds[i].correlationId);
      if k :| i < k < n && before[k].correlationId == ds[i].correlationId {
        assert Recurs(limit, ds, i, k);
      }
      if k: nat :| Recurs(limit, ds, i, k) {
        assert before[k].correlationId == ds[i].correlationId;
      }
    }
  }

  lemma {:induction false} CompleteWhileNothingLost(limit: nat, ds: seq<Record>)
    requires limit > 0 && forall i: nat :: !EvictionLoses(limit, ds, i)
    ensures Complete(AddAll(limit, ds))
  {
    if ds != [] {
      var n := |ds| - 1;
      forall i: nat ensures !EvictionLoses(limit, ds[..n], i) {
        if k: nat :| Recurs(limit, ds[..n], i, k) {
          assert Recurs(limit, ds, i, k) && !EvictionLoses(limit, ds, i);
        }
      }
      CompleteWhileNothingLost(limit, ds[..n]);
      HistoryIsTail(limit, ds[..n]);
      EvictsIff(limit, ds[..n], ds[n]);
      assert ds[..n] + [ds[n]] == ds;
      CompleteIff(limit, AddAll(limit, ds[..n]), ds[n]);
    }
  }

  lemma LostMeansIncomplete(limit: nat, ds: seq<Record>, i: nat)
    requires limit > 0 && EvictionLoses(limit, ds, i)
    ensures !CompleteThroughout(limit, ds)
  {
    var before, d := ds[..i + limit], ds[i + limit];
    var upto := before + [d];
    assert upto == ds[..i + limit + 1] && upto[..i + limit] == before;
    var k: nat :| Recurs(limit, ds, i, k);
    assert Recurs(limit, upto, i, k);
    if CompleteThroughout(limit, ds) {
      assert Complete(AddAll(limit, before)) && Complete(AddAll(limit, upto));
      HistoryIsTail(limit, before);
      EvictsIff(limit, before, d);
      CompleteIff(limit, AddAll(limit, before), d);
    }
  }

  lemma NothingLostBefore(limit: nat, ds: seq<Record>, n: nat)
    requires n <= |ds| && NoRecurrenceLost(limit, ds)
    ensures forall i: nat :: !EvictionLoses(limit, ds[..n], i)
  {
    forall i: nat ensures !EvictionLoses(limit, ds[..n], i) {
      if k: nat :| Recurs(limit, ds[..n], i, k) {
        assert Recurs(limit, ds, i, k);
      }
    }
  }

  lemma NothingLostIsComplete(limit: nat, ds: seq<Record>)
    requires limit > 0 && NoRecurrenceLost(limit, ds)
    ensures CompleteThroughout(limit, ds)
  {
    forall n | 0 <= n <= |ds| ensures Complete(AddAll(limit, ds[..n])) {
      NothingLostBefore(limit, ds, n);
      CompleteWhileNothingLost(limit, ds[..n]);
    }
  }

  lemma LostRecurrence(limit: nat, ds: seq<Record>) returns (i: nat)
    requires !NoRecurrenceLost(limit, ds)
    ensures EvictionLoses(limit, ds, i)
  {
    var k: nat;
    i, k :| Recurs(limit, ds, i, k) && ds[i + limit].correlationId != ds[i].correlationId;
  }

  /** The lookup finds every retained decision, at every moment of a run, if and only if no id that
      recurs among the retained decisions is evicted by a decision with another id. */
  lemma CompleteThroughoutIff(limit: nat, ds: seq<Record>)
    requires limit > 0
    ensures CompleteThroughout(limit, ds) <==> NoRecurrenceLost(limit, ds)
  {
    if NoRecurrenceLost(limit, ds) {
      NothingLostIsComplete(limit, ds);
    } else {
      var i := LostRecurrence(limit, ds);
      LostMeansIncomplete(limit, ds, i);
    }
  }

  /** No id recurs among decisions that are retained or recorded together. */
  ghost predicate DistinctIds(limit: nat, ds: seq<Record>) {
    forall i, j :: 0 <= i < j < |ds| && j - i < limit ==> ds[i].correlationId != ds[j].correlationId
  }

  /** When retained and newly recorded ids differ, every retained decision is found, after any run. */
  lemma DistinctIdsAreFound(limit: nat, ds: seq<Record>)
    requires limit > 0 && DistinctIds(limit, ds)
    ensures Complete(AddAll(limit, ds))
  {
    CompleteThroughoutIff(limit, ds);
    assert ds[..|ds|] == ds;
  }
}
