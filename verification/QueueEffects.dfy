/** What one step of the queue does, told in the fields of the state alone. */
module QueueEffects {
  import opened Common
  import opened Requests
  import opened QueueModel
  import opened QueueInvariants

  /** The queued requests that may still be started: not marked as cancelled and not overdue. */
  function Startable(s: State): set<nat> {
    set id | id in s.queued && id in s.requests && id !in s.flagged && s.now < s.requests[id].deadline
  }

  /** Queued requests whose time is up before anybody marked them. */
  function Overdue(s: State): set<nat> {
    set id | id in s.queued && id in s.requests && id !in s.flagged && s.requests[id].deadline <= s.now
  }

  // ----- Submitting -----

  /** The lifecycle lets the priority in. */
  predicate LetsIn(l: Lifecycle, p: Priority) {
    l == Accepting || (l != Closed && (p == Foreground || p == Interactive))
  }

  /** A submit is accepted exactly when the queue is not closed, it is accepting or the request is
      foreground work, and fewer than max_size queued requests may still be started. Each refusal says
      which test failed. */
  lemma AcceptedIff(c: Config, s: State, p: Priority)
    ensures VerdictOf(c, s, p) == Accepted <==> LetsIn(s.lifecycle, p) && |Startable(s)| < c.maxSize
    ensures VerdictOf(c, s, p) == RejectedClosed <==> s.lifecycle == Closed
    ensures VerdictOf(c, s, p) == RejectedBackground
       <==> (s.lifecycle == Paused || s.lifecycle == Draining) && (p == Background || p == Bulk)
    ensures VerdictOf(c, s, p) == RejectedFull <==> LetsIn(s.lifecycle, p) && c.maxSize <= |Startable(s)|
  {
    assert Live(s) == Startable(s);
  }

  /** An accepted request enters the queue as submitted, at the present instant, beside the requests that
      may still be started; what was overdue has timed out, and one parked worker, if any, is woken. */
  lemma AcceptedEnters(c: Config, s: State, p: Priority, deadline: int, woken: Option<Worker>)
    requires Enabled(c, s, Submit(p, deadline, woken)) && LetsIn(s.lifecycle, p) && |Startable(s)| < c.maxSize
    ensures var t := Step(c, s, Submit(p, deadline, woken));
      && t.requests == s.requests[s.issued := Request(p, s.now, deadline)]
      && t.queued == Startable(s) + {s.issued} && t.issued == s.issued + 1 && t.rejected == s.rejected
      && s.issued in t.futures && t.futures[s.issued] == Pending
      && (forall id :: id in s.futures && id != s.issued ==>
            && id in t.futures
            && t.futures[id] == if id in Overdue(s) && s.futures[id] == Pending then TimedOut else s.futures[id])
      && t.workers == (if woken.Some? then s.workers[woken.value := Notified] else s.workers)
      && t.lifecycle == s.lifecycle && t.now == s.now
    ensures if woken.Some? then woken.value in s.workers && s.workers[woken.value] == Parked
            else forall w :: w in s.workers ==> s.workers[w] != Parked
  {
    AcceptedIff(c, s, p);
    assert Live(s) == Startable(s) && Expiring(s) == Overdue(s);
    assert woken.Some? ==> woken.value in ParkedIn(s.workers);
    assert forall w :: w in s.workers && s.workers[w] == Parked ==> w in ParkedIn(s.workers);
  }

  /** A refused submit is counted and leaves requests and workers alone; only when the queue is full do
      overdue and cancelled entries go. */
  lemma RefusedLeaves(c: Config, s: State, p: Priority, deadline: int, woken: Option<Worker>)
    requires Enabled(c, s, Submit(p, deadline, woken)) && !(LetsIn(s.lifecycle, p) && |Startable(s)| < c.maxSize)
    ensures var t := Step(c, s, Submit(p, deadline, woken));
      && t.rejected == s.rejected + 1 && t.requests == s.requests && t.issued == s.issued
      && t.workers == s.workers && t.lifecycle == s.lifecycle && t.now == s.now
      && t.queued == (if LetsIn(s.lifecycle, p) then Startable(s) else s.queued)
      && t.futures.Keys == s.futures.Keys
      && forall id :: id in s.futures ==>
           t.futures[id] == if LetsIn(s.lifecycle, p) && id in Overdue(s) && s.futures[id] == Pending then TimedOut
                            else s.futures[id]
  {
    AcceptedIff(c, s, p);
    assert Live(s) == Startable(s) && Expiring(s) == Overdue(s);
  }

  // ----- Getting -----

  /** A worker that looks takes a request exactly when the queue is not paused and one may be started;
      it ends exactly when the queue is closed and empty, and otherwise parks. Draining does not keep
      it from taking. */
  lemma TakesIff(c: Config, s: State, w: Worker, pick: Option<nat>)
    requires Enabled(c, s, Pass(w, pick)) && (s.lifecycle == Closed ==> s.queued == {})
    ensures pick.Some? <==> s.lifecycle != Paused && Startable(s) != {}
    ensures pick.Some? ==> pick.value in Startable(s)
    ensures var t := Step(c, s, Pass(w, pick));
      && t.workers == s.workers[w := if pick.Some? then Acquiring(pick.value)
                                     else if s.lifecycle == Closed then Gone else Parked]
      && t.queued == Startable(s) - (if pick.Some? then {pick.value} else {})
      && t.requests == s.requests && t.lifecycle == s.lifecycle && t.now == s.now
      && t.futures.Keys == s.futures.Keys
      && (forall id :: id in s.futures ==>
            t.futures[id] == if id in Overdue(s) && s.futures[id] == Pending then TimedOut else s.futures[id])
  {
    assert Live(s) == Startable(s) && Expiring(s) == Overdue(s);
  }

  /** A request counts among the m + 1 most urgent classes: foreground, interactive, background and bulk in
      that order, where every full interval waited lifts it by one class. */
  predicate Urgent(r: Request, now: int, interval: int, m: int) {
    Within(if r.priority == Foreground then 0
           else if r.priority == Interactive then 1
           else if r.priority == Background then 2 else 3, now - r.enqueuedAt, interval, m)
  }

  predicate Within(steps: int, waited: int, interval: int, m: int) {
    steps <= m || (interval > 0 && waited >= (steps - m) * interval)
  }

  lemma QuotientReaches(a: int, d: int, n: int)
    requires d > 0
    ensures a / d >= n <==> a >= n * d
  {
    if a >= n * d {
      DivMonotone(n * d, a, d);
      assert n * d / d == n by { Cancels(n, d); }
    }
    if a / d >= n {
      MulMonotone(n, a / d, d);
    }
  }

  lemma Cancels(n: int, d: int)
    requires d > 0
    ensures n * d / d == n
  {
    CancelFactor(n - 1, n * d / d, d);
    CancelFactor(n * d / d, n + 1, d);
  }

  lemma AgedAtMost(n: int, waited: int, interval: int, m: int)
    requires interval > 0 && m >= 0
    ensures Max(0, n - waited / interval) <= m <==> waited >= (n - m) * interval
    ensures waited >= 0 && n <= m ==> Max(0, n - waited / interval) <= m
  {
    QuotientReaches(waited, interval, n - m);
    if waited >= 0 {
      QuotientReaches(waited, interval, 0);
    }
  }

  lemma UrgentIsRank(r: Request, now: int, interval: int, m: int)
    requires m >= 0 && r.enqueuedAt <= now
    ensures Urgent(r, now, interval, m) <==> AgedRank(r, now, interval) <= m
  {
    var n := BaseRank(r.priority);
    assert Urgent(r, now, interval, m) <==> Within(n, now - r.enqueuedAt, interval, m);
    if interval > 0 {
      AgedAtMost(n, now - r.enqueuedAt, interval, m);
    }
  }

  /** No request that may be started is more urgent than the one taken, and among equally urgent ones the
      earliest is taken. */
  lemma TakesMostUrgent(c: Config, s: State, w: Worker, j: nat, i: nat)
    requires Sequenced(s) && Enabled(c, s, Pass(w, Some(j))) && i in Startable(s) && i != j && j in s.requests
    ensures forall m :: 0 <= m && Urgent(s.requests[i], s.now, c.interval, m) ==>
              Urgent(s.requests[j], s.now, c.interval, m)
    ensures i < j ==> exists m :: 0 <= m && Urgent(s.requests[j], s.now, c.interval, m)
                                        && !Urgent(s.requests[i], s.now, c.interval, m)
  {
    assert i in Live(s);
    forall m | 0 <= m && Urgent(s.requests[i], s.now, c.interval, m)
      ensures Urgent(s.requests[j], s.now, c.interval, m)
    {
      UrgentIsRank(s.requests[i], s.now, c.interval, m);
      UrgentIsRank(s.requests[j], s.now, c.interval, m);
    }
    if i < j {
      var m := AgedRank(s.requests[j], s.now, c.interval);
      UrgentIsRank(s.requests[i], s.now, c.interval, m);
      UrgentIsRank(s.requests[j], s.now, c.interval, m);
    }
  }

  // ----- Around the runner -----

  /** The other workers, the queue and the clock are as before. */
  predicate OnlyWorker(s: State, t: State, w: Worker) {
    && w in s.workers && w in t.workers && t.workers == s.workers[w := t.workers[w]]
    && t.queued == s.queued && t.requests == s.requests && t.flagged == s.flagged && t.now == s.now
    && t.lifecycle == s.lifecycle && t.issued == s.issued && t.rejected == s.rejected
  }

  /** The end of the runner settles the worker's own pending future with the runner's outcome and
      nothing else; the worker keeps the request until the bookkeeping. */
  lemma RunnerSettles(c: Config, s: State, w: Worker, ok: bool)
    requires Enabled(c, s, EndRun(w, ok)) && s.futures.Keys == s.requests.Keys && s.workers[w].id in s.requests
    ensures var id := s.workers[w].id; var t := Step(c, s, EndRun(w, ok));
      && OnlyWorker(s, t, w) && t.workers[w] == Ending(id) && t.completed == s.completed
      && t.futures == s.futures[id := if s.futures[id] != Pending then s.futures[id]
                                      else if ok then Resolved else Failed]
  {
    var id := s.workers[w].id;
    assert Step(c, s, EndRun(w, ok)).futures
        == s.futures[id := if s.futures[id] != Pending then s.futures[id] else if ok then Resolved else Failed];
  }

  /** After the bookkeeping the worker is on its way to the next request, unless its runner was cancelled;
      the run is counted once and no future changes. */
  lemma WorkerReturns(c: Config, s: State, w: Worker)
    requires Enabled(c, s, Finish(w))
    ensures var t := Step(c, s, Finish(w));
      && OnlyWorker(s, t, w) && t.futures == s.futures && t.completed == s.completed + 1
      && t.workers[w] == if s.workers[w].Aborting? then Gone else Idle
  {
  }

  /** Cancelling a worker settles nothing: in the runner the bookkeeping still follows, before it the
      worker just gives up. */
  lemma CancelledWorker(c: Config, s: State, w: Worker)
    ensures Enabled(c, s, CancelRun(w)) ==>
      var t := Step(c, s, CancelRun(w));
      OnlyWorker(s, t, w) && t.futures == s.futures && t.completed == s.completed
      && t.workers[w] == Aborting(s.workers[w].id)
    ensures Enabled(c, s, CancelAcquire(w)) ==>
      var t := Step(c, s, CancelAcquire(w));
      OnlyWorker(s, t, w) && t.futures == s.futures && t.completed == s.completed && t.workers[w] == Gone
    ensures Enabled(c, s, Acquired(w)) ==>
      var t := Step(c, s, Acquired(w));
      OnlyWorker(s, t, w) && t.futures == s.futures && t.completed == s.completed
      && t.workers[w] == Running(s.workers[w].id)
  {
  }

  /** No cancellation reaches the worker in this run. */
  ghost predicate Spared(es: seq<Event>, w: Worker) {
    forall k :: 0 <= k < |es| ==> es[k] != CancelAcquire(w) && es[k] != CancelRun(w)
  }

  predicate OnDuty(s: State, w: Worker) {
    w in s.workers && s.workers[w] != Gone && !s.workers[w].Aborting?
  }

  lemma StaysOnDuty(c: Config, s: State, e: Event, w: Worker)
    requires Enabled(c, s, e) && OnDuty(s, w) && e != CancelAcquire(w) && e != CancelRun(w)
    ensures var t := Step(c, s, e); OnDuty(t, w) || t.lifecycle == Closed
  {
    match e
    case Submit(p, deadline, woken) => assert OnDuty(SubmitStep(c, s, p, deadline, woken), w);
    case Pass(v, pick) => assert v != w ==> PassStep(s, v, pick).workers[w] == s.workers[w];
    case _ =>
  }

  lemma ClosedStays(c: Config, s: State, e: Event)
    requires Enabled(c, s, e) && s.lifecycle == Closed
    ensures Step(c, s, e).lifecycle == Closed
  {
  }

  /** Workers always come back for more: over any run a worker that nobody cancels ends only when the
      queue has been closed. */
  lemma {:induction false} WorkersServeUntilClosed(c: Config, s: State, es: seq<Event>, w: Worker)
    requires IsRun(c, s, es) && Spared(es, w) && (OnDuty(s, w) || s.lifecycle == Closed)
    ensures var t := After(c, s, es); OnDuty(t, w) || t.lifecycle == Closed
    decreases |es|
  {
    if es != [] {
      if s.lifecycle == Closed {
        ClosedStays(c, s, es[0]);
      } else {
        assert es[0] != CancelAcquire(w) && es[0] != CancelRun(w);
        StaysOnDuty(c, s, es[0], w);
      }
      WorkersServeUntilClosed(c, Step(c, s, es[0]), es[1..], w);
    }
  }

  // ----- Submitters and operators -----

  /** A cancelled submitter settles its own pending future; its handler then marks its own request. */
  lemma SubmitterCancels(c: Config, s: State, id: nat)
    requires id in s.futures
    ensures var t := Step(c, s, CancelFuture(id));
      t == s.(futures := s.futures[id := if s.futures[id] == Pending then Cancelled else s.futures[id]])
    ensures s.futures[id] != Pending ==> Step(c, s, ObserveCancel(id)) == s.(flagged := s.flagged + {id})
  {
    assert Step(c, s, CancelFuture(id)).futures
        == s.futures[id := if s.futures[id] == Pending then Cancelled else s.futures[id]];
  }

  /** Time moves nothing but the clock. */
  lemma OnlyTheClockMoves(c: Config, s: State, to: int)
    requires s.now <= to
    ensures Step(c, s, Tick(to)) == s.(now := to)
  {
  }

  /** Every parked worker is woken and the others are left alone. */
  predicate WokeAll(ws: map<Worker, Phase>, after: map<Worker, Phase>) {
    after.Keys == ws.Keys && forall w :: w in ws ==> after[w] == if ws[w] == Parked then Notified else ws[w]
  }

  /** Pause, resume and drain enter their own lifecycle state, unless closed, and wake every parked worker;
      they touch no request. */
  lemma LifecycleMoves(c: Config, s: State)
    requires s.lifecycle != Closed
    ensures var t := Step(c, s, Pause);
      t == s.(lifecycle := Paused, workers := t.workers) && WokeAll(s.workers, t.workers)
    ensures var t := Step(c, s, Resume);
      t == s.(lifecycle := Accepting, workers := t.workers) && WokeAll(s.workers, t.workers)
    ensures var t := Step(c, s, Drain);
      t == s.(lifecycle := Draining, workers := t.workers) && WokeAll(s.workers, t.workers)
  {
  }

  lemma ClosedIgnoresOperators(c: Config, s: State)
    requires s.lifecycle == Closed
    ensures Step(c, s, Pause) == s && Step(c, s, Resume) == s && Step(c, s, Drain) == s
  {
  }

  /** Closing empties the queue, cancels exactly the queued requests and wakes every parked worker, so
      that it can end. */
  lemma CloseEffect(c: Config, s: State)
    ensures var t := Step(c, s, Close);
      && t == s.(lifecycle := Closed, queued := {}, flagged := s.flagged + s.queued,
                 futures := t.futures, workers := t.workers)
      && WokeAll(s.workers, t.workers) && t.futures.Keys == s.futures.Keys
      && forall id :: id in s.futures ==>
           t.futures[id] == if id in s.queued && s.futures[id] == Pending then Cancelled else s.futures[id]
  {
  }
}
