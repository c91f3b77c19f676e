/** What the queue guarantees over whole runs: progress, conservation, ordering and lifecycle safety. */
module QueueTheorems {
  import opened Common
  import opened Requests
  import opened QueueModel
  import opened QueueInvariants

  // ----- Progress -----

  lemma InvMeansBusy(c: Config, s: State)
    requires Inv(c, s)
    requires forall w :: w in s.workers ==> !s.workers[w].Idle? && !s.workers[w].Notified?
    requires !s.lifecycle.Paused? && s.queued != {}
    ensures forall w :: w in s.workers ==> Holds(s.workers[w]) || s.workers[w].Gone?
  {
    assert NotifiedIn(s.workers) == {};
    forall w | w in s.workers ensures !s.workers[w].Parked? {
      assert s.workers[w].Parked? ==> w in ParkedIn(s.workers);
    }
  }

  /** In a quiescent state (no worker on its way to get) that is not paused and has queued items,
      no worker is parked: each of them is busy or has ended. */
  lemma QuiescentMeansBusy(c: Config, s: State)
    requires Reachable(c, s)
    requires forall w :: w in s.workers ==> !s.workers[w].Idle? && !s.workers[w].Notified?
    requires !s.lifecycle.Paused? && s.queued != {}
    ensures forall w :: w in s.workers ==> Holds(s.workers[w]) || s.workers[w].Gone?
  {
    ReachableInv(c, s);
    InvMeansBusy(c, s);
  }

  // ----- Conservation -----

  /** An accepted request is queued, or held by exactly one worker, or has left; once it has left
      its future is settled, unless its worker was cancelled. */
  lemma OnePlacePerRequest(c: Config, s: State, id: nat)
    requires Reachable(c, s) && id in s.requests
    ensures id in s.queued ==> id !in s.abandoned && forall w :: !HeldBy(s, id, w)
    ensures forall v, w :: HeldBy(s, id, v) && HeldBy(s, id, w) ==> v == w
    ensures id !in s.queued && id !in s.abandoned && (forall w :: !HeldBy(s, id, w)) ==>
              id in s.futures && !s.futures[id].Pending?
  {
    ReachableInv(c, s);
  }

  /** The workers that took a request of one of the priorities and have not finished with it. */
  function Serving(s: State, priorities: set<Priority>): set<Worker> {
    set w | w in s.workers && Holds(s.workers[w]) && s.workers[w].id in s.requests
            && s.requests[s.workers[w].id].priority in priorities
  }

  lemma ServingIs(s: State, foreground: bool)
    ensures HoldersIn(s.workers, s.requests, foreground)
         == Serving(s, if foreground then {Foreground, Interactive} else {Background, Bulk})
  {
  }

  /** The running counters are the numbers of holding workers, so never more than the workers. */
  lemma CountersAreHolders(c: Config, s: State)
    requires Reachable(c, s)
    ensures s.runningForeground == |HoldersIn(s.workers, s.requests, true)|
    ensures s.runningBackground == |HoldersIn(s.workers, s.requests, false)|
    ensures s.runningForeground + s.runningBackground <= |s.workers|
    ensures s.runningForeground == |Serving(s, {Foreground, Interactive})|
    ensures s.runningBackground == |Serving(s, {Background, Bulk})|
  {
    ReachableInv(c, s);
    ServingIs(s, true);
    ServingIs(s, false);
    var f, b := HoldersIn(s.workers, s.requests, true), HoldersIn(s.workers, s.requests, false);
    SubsetSize(f + b, s.workers.Keys);
    assert |f + b| == |f| + |b|;
  }

  function Takes(es: seq<Event>): nat {
    if es == [] then 0 else (if es[0].Pass? && es[0].pick.Some? then 1 else 0) + Takes(es[1..])
  }

  function Ends(es: seq<Event>): nat {
    if es == [] then 0 else (if es[0].Finish? then 1 else 0) + Ends(es[1..])
  }

  function GivenUp(es: seq<Event>): nat {
    if es == [] then 0 else (if es[0].CancelAcquire? then 1 else 0) + GivenUp(es[1..])
  }

  /** Leaving one's request lowers exactly one running counter, by exactly one. */
  lemma LeaveBalance(s: State, w: Worker, id: nat, ended: int)
    requires Safe(s) && Counted(s) && HeldBy(s, id, w)
    ensures var t := FinishStep(s, w, id);
      t.runningForeground + t.runningBackground == s.runningForeground + s.runningBackground - 1
    ensures var t := AbandonStep(s, w, id, ended);
      t.runningForeground + t.runningBackground == s.runningForeground + s.runningBackground - 1
  {
    HoldersLose(s.workers, s.requests, w, Idle);
  }

  lemma PassBalance(s: State, w: Worker, pick: Option<nat>)
    requires Counted(s) && (pick.Some? ==> !Stops(s))
    ensures var t := PassStep(s, w, pick);
      && t.completed == s.completed
      && t.runningForeground + t.runningBackground
         == s.runningForeground + s.runningBackground + (if pick.Some? then 1 else 0)
  {
  }

  lemma BalanceStep(c: Config, s: State, e: Event)
    requires Inv(c, s) && Enabled(c, s, e)
    ensures var t := Step(c, s, e);
      && t.completed == s.completed + Ends([e])
      && t.runningForeground + t.runningBackground + Ends([e]) + GivenUp([e])
         == s.runningForeground + s.runningBackground + Takes([e])
  {
    match e
    case Finish(w) => LeaveBalance(s, w, s.workers[w].id, 1);
    case CancelAcquire(w) => LeaveBalance(s, w, s.workers[w].id, 0);
    case Pass(w, pick) => PassBalance(s, w, pick);
    case _ =>
  }

  /** Flow balance over a run: `completed` counts the ended runs, and what workers hold now is what
      they held before, plus what they took, minus what they finished or gave up. */
  lemma {:induction false} FlowBalance(c: Config, s: State, es: seq<Event>)
    requires Inv(c, s) && IsRun(c, s, es)
    ensures var t := After(c, s, es);
      && t.completed == s.completed + Ends(es)
      && t.runningForeground + t.runningBackground + Ends(es) + GivenUp(es)
         == s.runningForeground + s.runningBackground + Takes(es)
    decreases |es|
  {
    if es != [] {
      BalanceStep(c, s, es[0]);
      InvStep(c, s, es[0]);
      FlowBalance(c, Step(c, s, es[0]), es[1..]);
    }
  }

  lemma SubmitSettled(c: Config, s: State, p: Priority, deadline: int, woken: Option<Worker>, id: nat)
    requires Sequenced(s) && id in s.futures && !s.futures[id].Pending?
    ensures var t := SubmitStep(c, s, p, deadline, woken); id in t.futures && t.futures[id] == s.futures[id]
  {
    assert id != s.issued;
  }

  lemma PassSettled(s: State, w: Worker, pick: Option<nat>, id: nat)
    requires id in s.futures && !s.futures[id].Pending?
    ensures var t := PassStep(s, w, pick); id in t.futures && t.futures[id] == s.futures[id]
  {
  }

  lemma SettledStays(c: Config, s: State, e: Event, id: nat)
    requires Sequenced(s) && Enabled(c, s, e)
    requires id in s.futures && !s.futures[id].Pending?
    ensures var t := Step(c, s, e); id in t.futures && t.futures[id] == s.futures[id]
  {
    match e
    case Submit(p, deadline, woken) => SubmitSettled(c, s, p, deadline, woken, id);
    case Pass(w, pick) => PassSettled(s, w, pick, id);
    case _ =>
  }

  /** A future is settled at most once: an outcome never changes afterwards. */
  lemma {:induction false} SettledOnce(c: Config, s: State, es: seq<Event>, id: nat)
    requires Inv(c, s) && IsRun(c, s, es)
    requires id in s.futures && !s.futures[id].Pending?
    ensures var t := After(c, s, es); id in t.futures && t.futures[id] == s.futures[id]
    decreases |es|
  {
    if es != [] {
      SettledStays(c, s, es[0], id);
      InvStep(c, s, es[0]);
      SettledOnce(c, Step(c, s, es[0]), es[1..], id);
    }
  }

  function Submits(es: seq<Event>): nat {
    if es == [] then 0 else (if es[0].Submit? then 1 else 0) + Submits(es[1..])
  }

  /** Every submission is counted once, as accepted or as rejected. */
  lemma {:induction false} SubmissionBalance(c: Config, s: State, es: seq<Event>)
    requires IsRun(c, s, es)
    ensures var t := After(c, s, es); t.issued + t.rejected == s.issued + s.rejected + Submits(es)
    decreases |es|
  {
    if es != [] {
      SubmissionBalance(c, Step(c, s, es[0]), es[1..]);
    }
  }

  /** What may settle a request's future, and with which outcome: its own runner's end, its deadline
      while it is still queued, its submitter, or closing the queue over it. */
  ghost predicate Causes(s: State, e: Event, id: nat, outcome: Future) {
    match outcome
    case Pending => false
    case Resolved => e.EndRun? && e.ok && HeldBy(s, id, e.worker) && s.workers[e.worker].Running?
    case Failed => e.EndRun? && !e.ok && HeldBy(s, id, e.worker) && s.workers[e.worker].Running?
    case TimedOut => (e.Submit? || e.Pass?) && id in s.queued && id !in s.flagged
                     && id in s.requests && s.requests[id].deadline <= s.now
    case Cancelled => e == CancelFuture(id) || (e.Close? && id in s.queued)
  }

  lemma StepSettles(c: Config, s: State, e: Event, id: nat)
    requires Sequenced(s) && Enabled(c, s, e) && id in s.futures && s.futures[id].Pending?
    ensures var t := Step(c, s, e);
      id in t.futures && (t.futures[id].Pending? || Causes(s, e, id, t.futures[id]))
  {
    match e
    case Submit(p, deadline, woken) => SubmitSettles(c, s, p, deadline, woken, id);
    case Pass(w, pick) => PassSettles(s, w, pick, id);
    case _ =>
  }

  lemma SubmitSettles(c: Config, s: State, p: Priority, deadline: int, woken: Option<Worker>, id: nat)
    requires Sequenced(s) && id in s.futures && s.futures[id].Pending?
    ensures var t := SubmitStep(c, s, p, deadline, woken);
      id in t.futures && (t.futures[id].Pending? || (t.futures[id].TimedOut? && id in Expiring(s)))
  {
    assert id != s.issued;
  }

  lemma PassSettles(s: State, w: Worker, pick: Option<nat>, id: nat)
    requires id in s.futures && s.futures[id].Pending?
    ensures var t := PassStep(s, w, pick);
      id in t.futures && (t.futures[id].Pending? || (t.futures[id].TimedOut? && id in Expiring(s)))
  {
  }

  ghost function StateBefore(c: Config, s: State, es: seq<Event>, k: nat): State
    requires IsRun(c, s, es) && k <= |es|
    decreases |es|
  {
    if k == 0 then s else StateBefore(c, Step(c, s, es[0]), es[1..], k - 1)
  }

  /** Every outcome a submitter sees goes back to one step of the run that was entitled to set it. */
  lemma {:induction false} OutcomeHasCause(c: Config, s: State, es: seq<Event>, id: nat) returns (k: nat)
    requires Inv(c, s) && IsRun(c, s, es) && id in s.futures && s.futures[id].Pending?
    requires id in After(c, s, es).futures && !After(c, s, es).futures[id].Pending?
    ensures k < |es| && Causes(StateBefore(c, s, es, k), es[k], id, After(c, s, es).futures[id])
    decreases |es|
  {
    FirstStepSettles(c, s, es[0], id);
    if Step(c, s, es[0]).futures[id].Pending? {
      var j := OutcomeHasCause(c, Step(c, s, es[0]), es[1..], id);
      OneLater(c, s, es, j);
      k := j + 1;
    } else {
      CauseNow(c, s, es, id);
      k := 0;
    }
  }

  lemma FirstStepSettles(c: Config, s: State, e: Event, id: nat)
    requires Inv(c, s) && Enabled(c, s, e) && id in s.futures && s.futures[id].Pending?
    ensures Inv(c, Step(c, s, e)) && id in Step(c, s, e).futures
    ensures Step(c, s, e).futures[id].Pending? || Causes(s, e, id, Step(c, s, e).futures[id])
  {
    InvStep(c, s, e);
    StepSettles(c, s, e, id);
  }

  lemma OneLater(c: Config, s: State, es: seq<Event>, j: nat)
    requires IsRun(c, s, es) && j + 1 < |es|
    ensures StateBefore(c, s, es, j + 1) == StateBefore(c, Step(c, s, es[0]), es[1..], j) && es[j + 1] == es[1..][j]
  {
  }

  lemma CauseNow(c: Config, s: State, es: seq<Event>, id: nat)
    requires es != [] && IsRun(c, s, es) && Inv(c, Step(c, s, es[0]))
    requires var t := Step(c, s, es[0]);
      id in t.futures && !t.futures[id].Pending? && Causes(s, es[0], id, t.futures[id])
    ensures var u := After(c, s, es);
      id in u.futures && Causes(StateBefore(c, s, es, 0), es[0], id, u.futures[id])
  {
    SettledOnce(c, Step(c, s, es[0]), es[1..], id);
  }

  // ----- Ordering -----

  /** A live request i is passed over in favour of a later j only while i is not ripe and only
      for a strictly better base rank. */
  lemma OvertakingIsLimited(c: Config, s: State, w: Worker, i: nat, j: nat)
    requires Inv(c, s) && Enabled(c, s, Pass(w, Some(j)))
    requires i in Live(s) && i < j
    ensures BaseRank(s.requests[j].priority) < BaseRank(s.requests[i].priority)
    ensures c.interval > 0 ==> !Ripe(s.requests[i], s.now, c.interval)
  {
    OvertakingNeedsBetterRank(s.requests, i, j, s.now, c.interval);
  }

  function Earlier(s: State, i: nat): set<nat> {
    set j | j in s.queued && j < i
  }

  lemma RipeSubmit(c: Config, s: State, p: Priority, deadline: int, woken: Option<Worker>, i: nat)
    requires Sequenced(s) && i in s.queued && i in SubmitStep(c, s, p, deadline, woken).queued
    ensures var t := SubmitStep(c, s, p, deadline, woken);
      i in t.requests && t.requests[i] == s.requests[i] && t.now == s.now && Earlier(t, i) <= Earlier(s, i)
  {
    assert i != s.issued;
  }

  lemma RipePass(c: Config, s: State, w: Worker, pick: Option<nat>, i: nat)
    requires Inv(c, s) && Enabled(c, s, Pass(w, pick)) && c.interval > 0
    requires i in s.queued && Ripe(s.requests[i], s.now, c.interval) && i in PassStep(s, w, pick).queued
    ensures var t := PassStep(s, w, pick);
      && t.requests == s.requests && t.now == s.now && Earlier(t, i) <= Earlier(s, i)
      && (pick.Some? ==> pick.value in Earlier(s, i) && pick.value !in Earlier(t, i))
  {
    if pick.Some? {
      assert i in Live(s);
      if i < pick.value {
        OvertakingIsLimited(c, s, w, i, pick.value);
      }
    }
  }

  /** One step never adds a request ahead of a waiting one, and a ripe request that stays queued sees
      only earlier requests taken, each of which was queued already. */
  lemma RipeStep(c: Config, s: State, e: Event, i: nat)
    requires Inv(c, s) && Enabled(c, s, e) && c.interval > 0
    requires i in s.queued && Ripe(s.requests[i], s.now, c.interval)
    requires i in Step(c, s, e).queued
    ensures var t := Step(c, s, e);
      && i in t.requests && Ripe(t.requests[i], t.now, c.interval)
      && Earlier(t, i) <= Earlier(s, i)
      && (e.Pass? && e.pick.Some? ==> e.pick.value in Earlier(s, i) && e.pick.value !in Earlier(t, i))
  {
    match e
    case Submit(p, deadline, woken) => RipeSubmit(c, s, p, deadline, woken, i);
    case Pass(w, pick) => RipePass(c, s, w, pick, i);
    case _ =>
  }

  /** Bounded overtaking: while a ripe request stays queued, workers take only requests that were
      queued before it, so at most as many as were waiting ahead of it when it ripened. */
  lemma {:induction false} BoundedOvertaking(c: Config, s: State, es: seq<Event>, i: nat)
    requires Inv(c, s) && IsRun(c, s, es) && c.interval > 0
    requires i in s.queued && Ripe(s.requests[i], s.now, c.interval)
    requires i in After(c, s, es).queued
    ensures Takes(es) + |Earlier(After(c, s, es), i)| <= |Earlier(s, i)|
    decreases |es|
  {
    if es != [] {
      var t := Step(c, s, es[0]);
      InvStep(c, s, es[0]);
      if i !in t.queued {
        NeverRequeued(c, t, es[1..], i);
      }
      RipeStep(c, s, es[0], i);
      SubsetSize(Earlier(t, i), Earlier(s, i));
      if es[0].Pass? && es[0].pick.Some? {
        StrictSubsetSize(Earlier(t, i), Earlier(s, i), es[0].pick.value);
      }
      BoundedOvertaking(c, t, es[1..], i);
    }
  }

  lemma LeftStays(c: Config, s: State, e: Event, i: nat)
    requires Enabled(c, s, e) && i < s.issued && i !in s.queued
    ensures var t := Step(c, s, e); i < t.issued && i !in t.queued
  {
    match e
    case Submit(p, deadline, woken) => assert i !in SubmitStep(c, s, p, deadline, woken).queued;
    case Pass(w, pick) => assert i !in PassStep(s, w, pick).queued;
    case _ =>
  }

  /** A request that has left the queue never re-enters it. */
  lemma {:induction false} NeverRequeued(c: Config, s: State, es: seq<Event>, i: nat)
    requires IsRun(c, s, es) && i < s.issued && i !in s.queued
    ensures i !in After(c, s, es).queued
    decreases |es|
  {
    if es != [] {
      LeftStays(c, s, es[0], i);
      NeverRequeued(c, Step(c, s, es[0]), es[1..], i);
    }
  }

  // ----- Lifecycle -----

  /** Closed is final: from a closed state on, the queue stays closed and empty. */
  lemma {:induction false} ClosedIsFinal(c: Config, s: State, es: seq<Event>)
    requires Inv(c, s) && IsRun(c, s, es) && s.lifecycle.Closed?
    ensures var t := After(c, s, es); t.lifecycle.Closed? && t.queued == {} && t.issued == s.issued
    decreases |es|
  {
    if es != [] {
      InvStep(c, s, es[0]);
      ClosedIsFinal(c, Step(c, s, es[0]), es[1..]);
    }
  }

  /** A "full" rejection happens only when exactly max_size live requests are queued. */
  lemma FullMeansFull(c: Config, s: State, p: Priority)
    requires Reachable(c, s) && VerdictOf(c, s, p).RejectedFull?
    ensures |Live(s)| == c.maxSize && Live(s) == s.queued
  {
    ReachableInv(c, s);
    SubsetSize(Live(s), s.queued);
    if Live(s) != s.queued {
      var x :| x in s.queued && x !in Live(s);
      StrictSubsetSize(Live(s), s.queued, x);
    }
  }

  ghost predicate KeepsHold(es: seq<Event>) {
    forall k :: 0 <= k < |es| ==> !es[k].Resume? && !es[k].Drain? && !es[k].Close?
  }

  /** While the queue is paused no worker takes anything, although the operations manual says that
      queued work continues. */
  lemma {:induction false} PausedTakesNothing(c: Config, s: State, es: seq<Event>)
    requires IsRun(c, s, es) && s.lifecycle.Paused? && KeepsHold(es)
    ensures Takes(es) == 0 && After(c, s, es).lifecycle.Paused?
    decreases |es|
  {
    if es != [] {
      PausedTakesNothing(c, Step(c, s, es[0]), es[1..]);
    }
  }

  ghost predicate NoReopen(es: seq<Event>) {
    forall k :: 0 <= k < |es| ==> !es[k].Resume? && !es[k].Close?
  }

  /** What one poll of drain answers: true, false, or nothing yet. */
  function DrainAnswer(s: State, deadline: int): Option<bool> {
    if s.lifecycle.Closed? then Some(true)
    else if s.queued == {} && s.runningBackground == 0 then Some(true)
    else if s.now >= deadline then Some(false)
    else None
  }

  ghost predicate NoNewBackground(t: State, issued: nat) {
    forall id :: id in t.requests && IsBackground(t.requests[id].priority) ==> id < issued
  }

  lemma SubmitEnters(c: Config, s: State, p: Priority, deadline: int, woken: Option<Worker>, id: nat)
    requires var t := SubmitStep(c, s, p, deadline, woken); id in t.requests && id !in s.requests
    ensures VerdictOf(c, s, p).Accepted? && id == s.issued
    ensures SubmitStep(c, s, p, deadline, woken).requests[id].priority == p
  {
  }

  lemma PassEntersNothing(s: State, w: Worker, pick: Option<nat>)
    ensures PassStep(s, w, pick).requests == s.requests
  {
  }

  /** Background work enters the queue only while it is accepting. */
  lemma BackgroundEntersOnlyWhileAccepting(c: Config, s: State, e: Event, id: nat)
    requires Enabled(c, s, e)
    requires var t := Step(c, s, e);
      id in t.requests && id !in s.requests && IsBackground(t.requests[id].priority)
    ensures s.lifecycle.Accepting? && e.Submit? && id == s.issued
  {
    match e
    case Submit(p, deadline, woken) => SubmitEnters(c, s, p, deadline, woken, id);
    case Pass(w, pick) => PassEntersNothing(s, w, pick);
    case _ =>
  }

  lemma HoldStep(c: Config, s: State, e: Event, issued: nat)
    requires Inv(c, s) && Enabled(c, s, e) && !e.Resume? && !e.Close?
    requires s.lifecycle.Draining? || s.lifecycle.Paused?
    requires NoNewBackground(s, issued)
    ensures var t := Step(c, s, e); (t.lifecycle.Draining? || t.lifecycle.Paused?) && NoNewBackground(t, issued)
  {
    var t := Step(c, s, e);
    forall id | id in t.requests && IsBackground(t.requests[id].priority) ensures id < issued {
      if id !in s.requests {
        BackgroundEntersOnlyWhileAccepting(c, s, e, id);
      } else {
        RequestsStay(c, s, e, id);
      }
    }
  }

  lemma SubmitKeepsRequests(c: Config, s: State, p: Priority, deadline: int, woken: Option<Worker>, id: nat)
    requires Sequenced(s) && id in s.requests
    ensures var t := SubmitStep(c, s, p, deadline, woken); id in t.requests && t.requests[id] == s.requests[id]
  {
    assert id != s.issued;
  }

  lemma RequestsStay(c: Config, s: State, e: Event, id: nat)
    requires Sequenced(s) && Enabled(c, s, e) && id in s.requests
    ensures var t := Step(c, s, e); id in t.requests && t.requests[id] == s.requests[id]
  {
    match e
    case Submit(p, deadline, woken) => SubmitKeepsRequests(c, s, p, deadline, woken, id);
    case Pass(w, pick) => PassEntersNothing(s, w, pick);
    case _ =>
  }

  lemma {:induction false} DrainingAdmitsNoBackground(c: Config, s: State, es: seq<Event>, issued: nat)
    requires Inv(c, s) && IsRun(c, s, es) && NoReopen(es)
    requires s.lifecycle.Draining? || s.lifecycle.Paused?
    requires NoNewBackground(s, issued)
    ensures var t := After(c, s, es); (t.lifecycle.Draining? || t.lifecycle.Paused?) && NoNewBackground(t, issued)
    decreases |es|
  {
    if es != [] {
      InvStep(c, s, es[0]);
      HoldStep(c, s, es[0], issued);
      DrainingAdmitsNoBackground(c, Step(c, s, es[0]), es[1..], issued);
    }
  }

  /** A drain that answers true, with no resume or close in between, means that every background
      request accepted before it began has left the heap and the workers, and no other came in. */
  lemma DrainedMeansDone(c: Config, s: State, es: seq<Event>, deadline: int)
    requires Inv(c, s) && !s.lifecycle.Closed?
    requires IsRun(c, s, [Drain] + es) && NoReopen(es)
    requires DrainAnswer(After(c, s, [Drain] + es), deadline) == Some(true)
    ensures var t := After(c, s, [Drain] + es);
      forall id :: id in t.requests && IsBackground(t.requests[id].priority) ==>
        id in s.requests && id !in t.queued && forall w :: !HeldBy(t, id, w)
  {
    var run := [Drain] + es;
    assert run[1..] == es;
    var d := Step(c, s, Drain);
    InvStep(c, s, Drain);
    DrainingAdmitsNoBackground(c, d, es, s.issued);
    InvRun(c, s, run);
    var t := After(c, s, run);
    assert HoldersIn(t.workers, t.requests, false) == {};
    forall id, w | id in t.requests && IsBackground(t.requests[id].priority) ensures !HeldBy(t, id, w) {
      assert HeldBy(t, id, w) ==> w in HoldersIn(t.workers, t.requests, false);
    }
  }
}
