/** Queued requests and the order in which workers take them. */
module Requests {
  import opened Common

  datatype Priority = Foreground | Interactive | Background | Bulk

  /** Base rank of a priority; a lower rank is served first. */
  function BaseRank(p: Priority): nat {
    match p
    case Foreground => 0
    case Interactive => 1
    case Background => 2
    case Bulk => 3
  }

  predicate IsForeground(p: Priority) {
    p.Foreground? || p.Interactive?
  }

  predicate IsBackground(p: Priority) {
    p.Background? || p.Bulk?
  }

  datatype Request = Request(priority: Priority, enqueuedAt: int, deadline: int)

  /** Accepted requests by the sequence number drawn when they entered the queue. */
  type Table = map<nat, Request>

  /** Rank after ageing: one step better for every full interval waited, never below zero.
      A non-positive interval switches ageing off. */
  function AgedRank(r: Request, now: int, interval: int): nat {
    if interval <= 0 then BaseRank(r.priority)
    else Max(0, BaseRank(r.priority) - (now - r.enqueuedAt) / interval)
  }

  /** Service order: aged rank first, then sequence number. */
  predicate Before(t: Table, i: nat, j: nat, now: int, interval: int)
    requires i in t && j in t
  {
    var a, b := AgedRank(t[i], now, interval), AgedRank(t[j], now, interval);
    a < b || (a == b && i < j)
  }

  ghost predicate IsFirst(t: Table, i: nat, ids: set<nat>, now: int, interval: int)
    requires ids <= t.Keys
  {
    i in ids && forall j :: j in ids && j != i ==> Before(t, i, j, now, interval)
  }

  /** The instant from which ageing has lifted the request to the best rank. */
  predicate Ripe(r: Request, now: int, interval: int) {
    now - r.enqueuedAt >= BaseRank(r.priority) * interval
  }

  lemma MulMonotone(x: int, y: int, d: int)
    requires d >= 0 && x <= y
    ensures d * x <= d * y
  {
  }

  lemma CancelFactor(x: int, y: int, d: int)
    requires d > 0 && d * x < d * y
    ensures x < y
  {
    if x >= y {
      MulMonotone(y, x, d);
    }
  }

  lemma DivMonotone(a: int, b: int, d: int)
    requires d > 0 && a <= b
    ensures a / d <= b / d
  {
    assert d * (a / d) <= a <= b < d * (b / d + 1);
    CancelFactor(a / d, b / d + 1, d);
  }

  /** Once ripe, a request has rank zero for good. */
  lemma RipeHasRankZero(r: Request, now: int, interval: int)
    requires interval > 0 && Ripe(r, now, interval)
    ensures AgedRank(r, now, interval) == 0
  {
    var n := BaseRank(r.priority);
    DivMonotone(n * interval, now - r.enqueuedAt, interval);
    assert n == 0 || n == 1 || n == 2 || n == 3;
  }

  /** A later request j can only be served before an earlier i if it has a strictly better
      base rank and i is not ripe yet. */
  lemma OvertakingNeedsBetterRank(t: Table, i: nat, j: nat, now: int, interval: int)
    requires i in t && j in t && i < j && t[i].enqueuedAt <= t[j].enqueuedAt
    requires Before(t, j, i, now, interval)
    ensures BaseRank(t[j].priority) < BaseRank(t[i].priority)
    ensures interval > 0 ==> !Ripe(t[i], now, interval)
  {
    if interval > 0 {
      DivMonotone(now - t[j].enqueuedAt, now - t[i].enqueuedAt, interval);
      if Ripe(t[i], now, interval) {
        RipeHasRankZero(t[i], now, interval);
      }
    }
  }
}
