/**
 The queue object itself: a heap whose ranks may be stale, counters and maps that its methods
 update in place. Every method is proved to make exactly one step of the queue state machine,
 in which the heap is just a set of requests.
 */
module AsyncRequestQueue {
  import opened Common
  import opened Requests
  import opened Heapq
  import opened HeapContents
  import opened QueueModel
  import opened QueueInvariants
  import opened QueueTheorems
  import opened QueueEffects

  /** Heap order and distinct entries; without ageing the ranks are the base ranks. */
  ghost predicate HeapFits(c: Config, h: seq<Item>, t: Table, now: int) {
    && HeapOrdered(h) && Distinct(h) && Ids(h) <= t.Keys
    && (c.interval <= 0 ==> RanksCurrent(h, t, now, c.interval))
  }

  /** The futures once the entries of list prefix h[..i] have been looked at by a discard. */
  function Expired(s: State, h: seq<Item>, i: nat): map<nat, Future>
    requires i <= |h|
  {
    Settle(s.futures, Expiring(s) * Ids(h[..i]), TimedOut)
  }

  lemma DiscardNext(s: State, h: seq<Item>, i: nat)
    requires i < |h| && Ids(h) == s.queued <= s.requests.Keys
    ensures var id := h[i].id; var live := Live(s);
      && id in s.requests
      && (id in s.flagged ==>
            Kept(h[..i + 1], live) == Kept(h[..i], live) && Expired(s, h, i + 1) == Expired(s, h, i))
      && (id !in s.flagged && s.requests[id].deadline <= s.now ==>
            && Kept(h[..i + 1], live) == Kept(h[..i], live)
            && Expired(s, h, i + 1) == Settle(Expired(s, h, i), {id}, TimedOut))
      && (id !in s.flagged && s.now < s.requests[id].deadline ==>
            Kept(h[..i + 1], live) == Kept(h[..i], live) + [h[i]] && Expired(s, h, i + 1) == Expired(s, h, i))
  {
    var id := h[i].id;
    IdsNext(h, i);
    KeptNext(h, i, Live(s));
    var x := Expiring(s);
    if id in x {
      assert x * Ids(h[..i + 1]) == x * Ids(h[..i]) + {id};
      SettleTwice(s.futures, x * Ids(h[..i]), {id}, TimedOut);
    } else {
      assert x * Ids(h[..i + 1]) == x * Ids(h[..i]);
    }
  }

  lemma CollectDone(s: State, h: seq<Item>)
    requires Ids(h) == s.queued
    ensures Kept(h[..|h|], Live(s)) == Kept(h, Live(s)) && Expired(s, h, |h|) == Discard(s).futures
  {
    assert h[..|h|] == h;
    assert Expiring(s) * Ids(h) == Expiring(s);
  }

  /** The heap a discard leaves: rebuilt if something was dropped, untouched otherwise. */
  function Shrunk(h: seq<Item>, kept: seq<Item>): seq<Item> {
    if |kept| != |h| then Heapify(kept) else h
  }

  lemma ShrunkItems(s: State, h: seq<Item>)
    requires Ids(h) == s.queued && Distinct(h)
    ensures var r := Shrunk(h, Kept(h, Live(s)));
      && Distinct(r) && Ids(r) == Live(s) && (forall x :: x in r ==> x in h)
  {
    var k := Kept(h, Live(s));
    KeptItems(h, Live(s));
    assert Ids(h) * Live(s) == Live(s);
    Rebuilt(k, Heapify(k));
  }

  lemma DiscardDone(s: State, h: seq<Item>)
    requires Ids(h) == s.queued && Distinct(h)
    ensures Ids(Shrunk(h, Kept(h, Live(s)))) == Live(s)
  {
    ShrunkItems(s, h);
  }

  lemma ShrunkFits(c: Config, s: State, h: seq<Item>)
    requires Ids(h) == s.queued && HeapFits(c, h, s.requests, s.now)
    ensures HeapFits(c, Shrunk(h, Kept(h, Live(s))), s.requests, s.now)
  {
    ShrunkItems(s, h);
  }

  /** Re-ranked and rebuilt, a heap holds the same requests, with current ranks. */
  lemma AgedFits(c: Config, h: seq<Item>, t: Table, now: int)
    requires HeapFits(c, h, t, now)
    ensures var r := Heapify(Aged(h, t, now, c.interval));
      HeapFits(c, r, t, now) && Ids(r) == Ids(h) && RanksCurrent(r, t, now, c.interval)
  {
    var a := Aged(h, t, now, c.interval);
    AgedItems(h, t, now, c.interval);
    AgedCurrent(h, t, now, c.interval);
    Rebuilt(a, Heapify(a));
  }

  /** The longest waiting worker, if any, is woken; the others keep their order. */
  predicate FirstWoken(before: seq<Worker>, woken: Option<Worker>, after: seq<Worker>) {
    if before == [] then woken == None && after == []
    else woken == Some(before[0]) && after == before[1..]
  }

  lemma SubmitMeans(c: Config, s: State, p: Priority, deadline: int, woken: Option<Worker>)
    requires Enabled(c, s, Event.Submit(p, deadline, woken))
    ensures var v := VerdictOf(c, s, p);
      && (v == Accepted <==> LetsIn(s.lifecycle, p) && |Startable(s)| < c.maxSize)
      && (v == RejectedClosed <==> s.lifecycle == Closed)
      && (v == RejectedBackground
          <==> (s.lifecycle == Paused || s.lifecycle == Draining) && (p == Background || p == Bulk))
      && (v == RejectedFull <==> LetsIn(s.lifecycle, p) && c.maxSize <= |Startable(s)|)
    ensures var t := Step(c, s, Event.Submit(p, deadline, woken));
      if VerdictOf(c, s, p) == Accepted then
        && t.requests == s.requests[s.issued := Request(p, s.now, deadline)] && t.now == s.now
        && s.issued in t.futures && t.futures[s.issued] == Pending
        && t.queued == Startable(s) + {s.issued} && t.rejected == s.rejected
      else t.requests == s.requests && t.rejected == s.rejected + 1
  {
    AcceptedIff(c, s, p);
    if VerdictOf(c, s, p) == Accepted {
      AcceptedEnters(c, s, p, deadline, woken);
    } else {
      RefusedLeaves(c, s, p, deadline, woken);
    }
  }

  class RequestQueue {
    const config: Config
    var heap: seq<Item>
    var sequence: nat
    var lifecycle: Lifecycle
    var now: int
    var requests: Table
    var futures: map<nat, Future>
    var flagged: set<nat>
    var waiters: seq<Worker>           // parked on the condition variable, longest first
    var workers: map<Worker, Phase>
    var runningForeground: int
    var runningBackground: int
    var completed: int
    var rejected: int
    ghost var abandoned: set<nat>

    ghost function View(): State
      reads this
    {
      State(now, lifecycle, sequence, requests, futures, Ids(heap), flagged, abandoned, workers,
            runningForeground, runningBackground, completed, rejected)
    }

    ghost predicate HeapOk()
      reads this
    {
      HeapFits(config, heap, requests, now)
    }

    /** The heap entries that may still be started. */
    ghost function StartableNow(): set<nat>
      reads this
    {
      set id | id in Ids(heap) && id in requests && id !in flagged && now < requests[id].deadline
    }

    ghost predicate WaitersOk()
      reads this
    {
      && (forall w :: w in waiters <==> w in ParkedIn(workers))
      && (forall i, j :: 0 <= i < j < |waiters| ==> waiters[i] != waiters[j])
    }

    ghost predicate Valid()
      reads this
    {
      HeapOk() && WaitersOk() && Inv(config, View())
    }

    constructor (config: Config, workerIds: set<Worker>, now: int)
      ensures Valid() && Initial(View()) && View().workers.Keys == workerIds
      ensures this.config == config
    {
      this.config := config;
      heap, sequence, lifecycle, this.now := [], 0, Accepting, now;
      requests, futures, flagged, abandoned := map[], map[], {}, {};
      waiters, workers := [], map w | w in workerIds :: Idle;
      runningForeground, runningBackground, completed, rejected := 0, 0, 0, 0;
      new;
      InvInitial(config, View());
    }

    // ----- Housekeeping under the lock -----

    /** Splits the heap: overdue entries get their timeout, cancelled ones are dropped, the rest is kept. */
    method CollectKept() returns (kept: seq<Item>)
      requires Ids(heap) <= requests.Keys
      modifies this`futures
      ensures kept == Kept(heap, Live(old(View())))
      ensures futures == Discard(old(View())).futures
    {
      ghost var s := View();
      kept := [];
      var i := 0;
      while i < |heap|
        invariant 0 <= i <= |heap|
        invariant kept == Kept(heap[..i], Live(s)) && futures == Expired(s, heap, i)
      {
        var item := heap[i];
        DiscardNext(s, heap, i);
        if item.id in flagged {
        } else if requests[item.id].deadline <= now {
          futures := Settle(futures, {item.id}, TimedOut);
        } else {
          kept := kept + [item];
        }
        i := i + 1;
      }
      CollectDone(s, heap);
    }

    /** Drops cancelled entries, expires overdue ones and rebuilds the heap if anything went. */
    method RebuildLocked(ghost s: State)
      requires s == View() && Distinct(heap) && Ids(heap) <= requests.Keys
      modifies this`heap, this`futures
      ensures heap == Shrunk(old(heap), Kept(old(heap), Live(s)))
      ensures futures == Discard(s).futures
    {
      var kept := CollectKept();
      if |kept| != |heap| {
        heap := Heapify(kept);
      }
    }

    method DiscardExpiredLocked()
      requires HeapOk()
      modifies this`heap, this`futures
      ensures HeapOk()
      ensures View() == Discard(old(View()))
    {
      ghost var s, h := View(), heap;
      RebuildLocked(s);
      DiscardDone(s, h);
      ShrunkFits(config, s, h);
    }

    /** The entries with their ranks aged to the present, in list order. */
    method CollectAged() returns (updated: seq<Item>)
      requires Ids(heap) <= requests.Keys
      ensures updated == Aged(heap, requests, now, config.interval)
    {
      updated := [];
      var i := 0;
      while i < |heap|
        invariant 0 <= i <= |heap| && Ids(heap[..i]) <= requests.Keys
        invariant updated == Aged(heap[..i], requests, now, config.interval)
      {
        var item := heap[i];
        AgedNext(heap, i, requests, now, config.interval);
        updated := updated + [Item(AgedRank(requests[item.id], now, config.interval), item.id)];
        i := i + 1;
      }
      assert heap[..i] == heap;
    }

    /** Re-ranks every entry by its age and rebuilds the heap; the requests in it stay the same. */
    method RebalanceAgingLocked()
      requires HeapOk()
      modifies this`heap
      ensures HeapOk() && Ids(heap) == old(Ids(heap))
      ensures RanksCurrent(heap, requests, now, config.interval)
    {
      if config.interval <= 0 || heap == [] {
        return;
      }
      var updated := CollectAged();
      AgedFits(config, heap, requests, now);
      heap := Heapify(updated);
    }

    method MarkRunningLocked(id: nat, delta: int)
      modifies this`runningForeground, this`runningBackground
      ensures View() == MarkRunning(old(View()), id, delta)
    {
      if id in requests && IsForeground(requests[id].priority) {
        runningForeground := Max(0, runningForeground + delta);
      } else {
        runningBackground := Max(0, runningBackground + delta);
      }
    }

    method NotifyAllLocked()
      requires WaitersOk()
      modifies this`waiters, this`workers
      ensures WaitersOk() && View() == old(View()).(workers := NotifyAll(old(workers)))
    {
      workers := NotifyAll(workers);
      waiters := [];
      assert ParkedIn(workers) == {};
    }

    /** Wakes the longest waiting worker, if any. */
    method NotifyLocked() returns (woken: Option<Worker>)
      requires WaitersOk()
      modifies this`waiters, this`workers
      ensures WaitersOk() && View() == old(View()).(workers := NotifyOne(old(workers), woken))
      ensures woken.None? ==> ParkedIn(old(workers)) == {}
      ensures woken.Some? ==> woken.value in ParkedIn(old(workers))
      ensures FirstWoken(old(waiters), woken, waiters)
    {
      if waiters == [] {
        woken := None;
        assert forall w :: w in ParkedIn(workers) ==> w in waiters;
      } else {
        var w := waiters[0];
        woken := Some(w);
        assert w in ParkedIn(workers);
        workers := workers[w := Notified];
        waiters := waiters[1..];
        assert ParkedIn(workers) == old(ParkedIn(workers)) - {w};
        assert forall v :: v in waiters <==> v in old(waiters) && v != w;
      }
    }

    // ----- Submitters -----

    method SubmitLocked(p: Priority, deadline: int) returns (verdict: Verdict, ghost woken: Option<Worker>)
      requires HeapOk() && WaitersOk() && sequence !in requests
      modifies this
      ensures HeapOk() && WaitersOk()
      ensures verdict == VerdictOf(config, old(View()), p)
      ensures verdict == Accepted ==> FirstWoken(old(waiters), woken, waiters)
      ensures WokenOk(config, old(View()), p, woken)
      ensures View() == SubmitStep(config, old(View()), p, deadline, woken)
    {
      woken := None;
      if lifecycle.Closed? {
        rejected := rejected + 1;
        verdict := RejectedClosed;
      } else if (lifecycle.Paused? || lifecycle.Draining?) && IsBackground(p) {
        rejected := rejected + 1;
        verdict := RejectedBackground;
      } else {
        DiscardExpiredLocked();
        CountIds(heap);
        if |heap| >= config.maxSize {
          rejected := rejected + 1;
          verdict := RejectedFull;
        } else {
          woken := PushLocked(p, deadline);
          verdict := Accepted;
        }
      }
    }

    method PushLocked(p: Priority, deadline: int) returns (ghost woken: Option<Worker>)
      requires HeapOk() && WaitersOk() && sequence !in requests
      modifies this
      ensures HeapOk() && WaitersOk()
      ensures woken.None? ==> ParkedIn(old(workers)) == {}
      ensures woken.Some? ==> woken.value in ParkedIn(old(workers))
      ensures FirstWoken(old(waiters), woken, waiters)
      ensures View() == Enqueue(old(View()), p, deadline, woken)
    {
      var item := Item(BaseRank(p), sequence);
      Pushed(heap, item);
      heap := Push(heap, item);
      requests := requests[sequence := Request(p, now, deadline)];
      futures := futures[sequence := Pending];
      sequence := sequence + 1;
      var w := NotifyLocked();
      woken := w;
    }

    /** Accepts exactly when the queue is not closed, is accepting or the request is foreground work, and
        fewer than max_size heap entries may still be started. An accepted request stands in the heap
        as submitted, at the present instant, with a pending future. */
    method Submit(p: Priority, deadline: int) returns (verdict: Verdict, ghost woken: Option<Worker>)
      requires Valid()
      modifies this
      ensures Valid()
      ensures verdict == Accepted <==> LetsIn(old(lifecycle), p) && |old(StartableNow())| < config.maxSize
      ensures verdict == RejectedClosed <==> old(lifecycle) == Closed
      ensures verdict == RejectedBackground
         <==> (old(lifecycle) == Paused || old(lifecycle) == Draining) && (p == Background || p == Bulk)
      ensures verdict == RejectedFull <==> LetsIn(old(lifecycle), p) && config.maxSize <= |old(StartableNow())|
      ensures verdict == Accepted ==>
        && requests == old(requests)[old(sequence) := Request(p, now, deadline)] && now == old(now)
        && old(sequence) in futures && futures[old(sequence)] == Pending
        && Ids(heap) == old(StartableNow()) + {old(sequence)} && rejected == old(rejected)
        && FirstWoken(old(waiters), woken, waiters)
      ensures verdict != Accepted ==> requests == old(requests) && rejected == old(rejected) + 1
      ensures Enabled(config, old(View()), Event.Submit(p, deadline, woken))
      ensures View() == Step(config, old(View()), Event.Submit(p, deadline, woken))
    {
      ghost var s := View();
      verdict, woken := SubmitLocked(p, deadline);
      SubmitMeans(config, s, p, deadline, woken);
      InvStep(config, s, Event.Submit(p, deadline, woken));
    }

    /** The submitter's task is cancelled while it awaits the future. */
    method CancelFuture(id: nat)
      requires Valid() && id in futures
      modifies this`futures
      ensures Valid()
      ensures View() == Step(config, old(View()), Event.CancelFuture(id))
    {
      ghost var s := View();
      SettleFuture(id, Cancelled);
      InvStep(config, s, Event.CancelFuture(id));
    }

    /** The submitter's cancellation handler marks the request. */
    method ObserveCancel(id: nat)
      requires Valid() && id in futures && !futures[id].Pending?
      modifies this`flagged
      ensures Valid()
      ensures View() == Step(config, old(View()), Event.ObserveCancel(id))
    {
      ghost var s := View();
      flagged := flagged + {id};
      InvStep(config, s, Event.ObserveCancel(id));
    }

    // ----- Workers -----

    method PassLocked(w: Worker) returns (pick: Option<nat>)
      requires HeapOk() && WaitersOk() && w in workers && (workers[w].Idle? || workers[w].Notified?)
      modifies this
      ensures HeapOk() && WaitersOk()
      ensures PickOk(config, old(View()), pick)
      ensures View() == PassStep(old(View()), w, pick)
      ensures w in workers && waiters == if workers[w].Parked? then old(waiters) + [w] else old(waiters)
    {
      ghost var s := View();
      pick := None;
      if lifecycle.Closed? && heap == [] {
        MoveWorker(w, Gone);
      } else {
        assert heap != [] ==> heap[0].id in Ids(heap);
        DiscardExpiredLocked();
        RebalanceAgingLocked();
        if heap != [] && !lifecycle.Paused? {
          var id := TakeRoot(w);
          pick := Some(id);
        } else {
          assert heap != [] ==> heap[0].id in Ids(heap);
          Park(w);
        }
      }
    }

    method Park(w: Worker)
      requires WaitersOk() && w in workers && !workers[w].Parked?
      modifies this`workers, this`waiters
      ensures WaitersOk() && View() == old(View()).(workers := old(workers)[w := Parked])
      ensures waiters == old(waiters) + [w]
    {
      assert w !in waiters;
      workers := workers[w := Parked];
      waiters := waiters + [w];
      assert ParkedIn(workers) == old(ParkedIn(workers)) + {w};
    }

    method TakeRoot(w: Worker) returns (id: nat)
      requires HeapOk() && WaitersOk() && w in workers && !workers[w].Parked?
      requires heap != [] && RanksCurrent(heap, requests, now, config.interval)
      modifies this
      ensures HeapOk() && WaitersOk()
      ensures IsFirst(old(requests), id, old(Ids(heap)), old(now), config.interval)
      ensures View() == Take(old(View()), w, id) && waiters == old(waiters)
    {
      id := heap[0].id;
      RootIsFirst(heap, requests, now, config.interval);
      Popped(heap);
      heap := Pop(heap);
      MoveWorker(w, Acquiring(id));
      MarkRunningLocked(id, 1);
    }

    /** Moves a worker that is not parked to a phase that is not parked either. */
    method MoveWorker(w: Worker, phase: Phase)
      requires WaitersOk() && w in workers && !workers[w].Parked? && !phase.Parked?
      modifies this`workers
      ensures WaitersOk() && View() == old(View()).(workers := old(workers)[w := phase])
    {
      workers := workers[w := phase];
      assert ParkedIn(workers) == old(ParkedIn(workers));
    }

    /** One pass of a worker through get. It takes a request exactly when the queue is not paused and an
        entry may still be started; it ends exactly when the queue is closed, and otherwise parks. The
        re-check of a popped entry cannot fail within one instant and is not repeated here. */
    method Pass(w: Worker) returns (pick: Option<nat>)
      requires Valid() && w in workers && (workers[w].Idle? || workers[w].Notified?)
      modifies this
      ensures Valid()
      ensures pick.Some? <==> old(lifecycle) != Paused && old(StartableNow()) != {}
      ensures pick.Some? ==> pick.value in old(StartableNow())
      ensures Ids(heap) == old(StartableNow()) - (if pick.Some? then {pick.value} else {})
      ensures workers == old(workers)[w := if pick.Some? then Acquiring(pick.value)
                                           else if old(lifecycle) == Closed then Gone else Parked]
      ensures waiters == if workers[w].Parked? then old(waiters) + [w] else old(waiters)
      ensures Enabled(config, old(View()), Event.Pass(w, pick))
      ensures View() == Step(config, old(View()), Event.Pass(w, pick))
    {
      ghost var s := View();
      pick := PassLocked(w);
      TakesIff(config, s, w, pick);
      InvStep(config, s, Event.Pass(w, pick));
    }

    method Acquired(w: Worker)
      requires Valid() && w in workers && workers[w].Acquiring?
      modifies this`workers
      ensures Valid()
      ensures View() == Step(config, old(View()), Event.Acquired(w))
    {
      ghost var s := View();
      MoveWorker(w, Running(workers[w].id));
      InvStep(config, s, Event.Acquired(w));
    }

    method SettleFuture(id: nat, outcome: Future)
      modifies this`futures
      ensures futures == Settle(old(futures), {id}, outcome)
    {
      if id in futures && futures[id].Pending? {
        futures := futures[id := outcome];
      }
    }

    /** The runner returns or raises. */
    method EndRun(w: Worker, ok: bool)
      requires Valid() && w in workers && workers[w].Running?
      modifies this`futures, this`workers
      ensures Valid()
      ensures View() == Step(config, old(View()), Event.EndRun(w, ok))
    {
      ghost var s := View();
      var id := workers[w].id;
      SettleFuture(id, if ok then Resolved else Failed);
      MoveWorker(w, Ending(id));
      InvStep(config, s, Event.EndRun(w, ok));
    }

    /** The worker's task is cancelled inside the runner; the bookkeeping still follows. */
    method CancelRun(w: Worker)
      requires Valid() && w in workers && workers[w].Running?
      modifies this`workers
      ensures Valid()
      ensures View() == Step(config, old(View()), Event.CancelRun(w))
    {
      ghost var s := View();
      MoveWorker(w, Aborting(workers[w].id));
      InvStep(config, s, Event.CancelRun(w));
    }

    /** The bookkeeping after a runner, once the slot is back. */
    method Finish(w: Worker)
      requires Valid() && w in workers && IsOver(workers[w])
      modifies this
      ensures Valid()
      ensures View() == Step(config, old(View()), Event.Finish(w))
    {
      ghost var s := View();
      if workers[w].Aborting? {
        AbandonLocked(w, 1);
      } else {
        FinishLocked(w);
      }
      InvStep(config, s, Event.Finish(w));
    }

    method FinishLocked(w: Worker)
      requires HeapOk() && WaitersOk() && w in workers && workers[w].Ending?
      modifies this
      ensures HeapOk() && WaitersOk()
      ensures View() == FinishStep(old(View()), w, old(workers)[w].id)
    {
      var id := workers[w].id;
      MoveWorker(w, Idle);
      completed := completed + 1;
      MarkRunningLocked(id, -1);
    }

    /** The worker's task is cancelled while it holds a request; `ended` is 1 after a runner. */
    method AbandonLocked(w: Worker, ended: int)
      requires HeapOk() && WaitersOk() && w in workers && Holds(workers[w])
      modifies this
      ensures HeapOk() && WaitersOk()
      ensures View() == AbandonStep(old(View()), w, old(workers)[w].id, ended)
    {
      var id := workers[w].id;
      abandoned := abandoned + {id};
      MoveWorker(w, Gone);
      completed := completed + ended;
      MarkRunningLocked(id, -1);
    }

    method CancelAcquire(w: Worker)
      requires Valid() && w in workers && workers[w].Acquiring?
      modifies this
      ensures Valid()
      ensures View() == Step(config, old(View()), Event.CancelAcquire(w))
    {
      ghost var s := View();
      AbandonLocked(w, 0);
      InvStep(config, s, Event.CancelAcquire(w));
    }

    // ----- Operators -----

    method Pause()
      requires Valid()
      modifies this`lifecycle, this`waiters, this`workers
      ensures Valid()
      ensures View() == Step(config, old(View()), Event.Pause)
    {
      ghost var s := View();
      if !lifecycle.Closed? {
        lifecycle := Paused;
        NotifyAllLocked();
      }
      InvStep(config, s, Event.Pause);
    }

    method Resume()
      requires Valid()
      modifies this`lifecycle, this`waiters, this`workers
      ensures Valid()
      ensures View() == Step(config, old(View()), Event.Resume)
    {
      ghost var s := View();
      if !lifecycle.Closed? {
        lifecycle := Accepting;
        NotifyAllLocked();
      }
      InvStep(config, s, Event.Resume);
    }

    method BeginDrain()
      requires Valid()
      modifies this`lifecycle, this`waiters, this`workers
      ensures Valid()
      ensures View() == Step(config, old(View()), Event.Drain)
    {
      ghost var s := View();
      if !lifecycle.Closed? {
        lifecycle := Draining;
        NotifyAllLocked();
      }
      InvStep(config, s, Event.Drain);
    }

    /** One poll of the drain loop. */
    method PollDrain(deadline: int) returns (answer: Option<bool>)
      requires Valid()
      ensures answer == DrainAnswer(View(), deadline)
      ensures answer == Some(true) <==> lifecycle == Closed || (Ids(heap) == {} && runningBackground == 0)
      ensures answer == Some(false) <==>
        lifecycle != Closed && (Ids(heap) != {} || runningBackground != 0) && deadline <= now
    {
      if lifecycle.Closed? {
        return Some(true);
      }
      CountIds(heap);
      if |heap| == 0 && runningBackground == 0 {
        return Some(true);
      }
      assert heap != [] ==> heap[0].id in Ids(heap);
      answer := if now >= deadline then Some(false) else None;
    }

    /** Cancels every queued request, then empties the heap. */
    method CancelQueuedLocked()
      modifies this`heap, this`flagged, this`futures
      ensures heap == [] && flagged == old(flagged) + old(Ids(heap))
      ensures futures == Settle(old(futures), old(Ids(heap)), Cancelled)
    {
      var i := 0;
      while i < |heap|
        invariant 0 <= i <= |heap| && heap == old(heap)
        invariant flagged == old(flagged) + Ids(heap[..i])
        invariant futures == Settle(old(futures), Ids(heap[..i]), Cancelled)
      {
        IdsNext(heap, i);
        SettleTwice(old(futures), Ids(heap[..i]), {heap[i].id}, Cancelled);
        flagged := flagged + {heap[i].id};
        SettleFuture(heap[i].id, Cancelled);
        i := i + 1;
      }
      assert heap[..i] == heap;
      heap := [];
    }

    method CloseLocked()
      requires HeapOk() && WaitersOk()
      modifies this
      ensures HeapOk() && WaitersOk()
      ensures View() == CloseStep(old(View()))
    {
      lifecycle := Closed;
      CancelQueuedLocked();
      NotifyAllLocked();
    }

    method Close()
      requires Valid()
      modifies this
      ensures Valid()
      ensures View() == Step(config, old(View()), Event.Close)
    {
      ghost var s := View();
      CloseLocked();
      InvStep(config, s, Event.Close);
    }

    method Tick(to: int)
      requires Valid() && now <= to
      modifies this`now
      ensures Valid()
      ensures View() == Step(config, old(View()), Event.Tick(to))
    {
      ghost var s := View();
      now := to;
      InvStep(config, s, Event.Tick(to));
    }
  }
}
