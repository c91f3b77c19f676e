/**
 Queue workers and scheduler slots running together, with immediate requests beside them. A worker
 that took a request asks the scheduler for a slot, runs, gives the slot back and only then
 reports to the queue. Every step is the code one task runs between two awaits.
 */
module Composition {
  import opened Common
  import Requests
  import Q = QueueModel
  import QueueInvariants
  import QueueTheorems
  import M = SlotMonitor
  import Scheduler

  datatype Config = Config(queue: Q.Config, slots: M.Config)

  datatype State = State(queue: Q.State, slots: M.State)

  /** `Queue` is a step of the queue that involves no slot; `Direct` a step of an immediate request or
      a change of limits; the others are the steps of a queue worker around its slot. */
  datatype Event =
    | Queue(step: Q.Event)
    | Direct(act: M.Event)
    | Turn(worker: Q.Worker)
    | SlotBack(worker: Q.Worker)
    | Report(worker: Q.Worker)
    | CancelTurn(worker: Q.Worker)

  function ClaimOf(q: Q.State, id: nat): M.Claim {
    M.Claim(Scheduler.POOL, Q.ClassOf(q.requests, id, true))
  }

  predicate InvolvesSlot(e: Q.Event) {
    e.Acquired? || e.Finish? || e.CancelAcquire?
  }

  predicate DirectOk(s: State, e: M.Event) {
    match e
    case Ask(t, claim) => t !in s.queue.workers && claim.pool == Scheduler.POOL
    case Wake(t) => t !in s.queue.workers
    case CancelWait(t) => t !in s.queue.workers
    case Release(t) => t !in s.queue.workers
    case Update(_) => true
  }

  predicate Acquiring(s: State, w: Q.Worker) {
    w in s.queue.workers && s.queue.workers[w].Acquiring?
  }

  predicate Running(s: State, w: Q.Worker) {
    w in s.queue.workers && s.queue.workers[w].Running?
  }

  /** The worker's runner is over and the queue does not know yet. */
  predicate Over(s: State, w: Q.Worker) {
    w in s.queue.workers && Q.IsOver(s.queue.workers[w])
  }

  predicate HoldsSlot(s: State, t: M.Task) {
    t in s.slots.tasks && s.slots.tasks[t].stage.Holding?
  }

  ghost predicate Enabled(c: Config, s: State, e: Event) {
    match e
    case Queue(step) => !InvolvesSlot(step) && Q.Enabled(c.queue, s.queue, step)
    case Direct(act) => DirectOk(s, act) && M.Enabled(c.slots, s.slots, act)
    case Turn(w) => Acquiring(s, w) && (w in s.slots.tasks ==> s.slots.tasks[w].stage.Notified?)
    case SlotBack(w) => Over(s, w) && HoldsSlot(s, w)
    case Report(w) => Over(s, w) && w !in s.slots.tasks
    case CancelTurn(w) => Acquiring(s, w) && w in s.slots.tasks && !HoldsSlot(s, w)
  }

  /** What a turn is for the scheduler: a first request for a slot, or another look after a wakeup. */
  function TurnEvent(s: State, w: Q.Worker): M.Event
    requires Acquiring(s, w)
  {
    M.TurnEvent(s.slots, w, ClaimOf(s.queue, s.queue.workers[w].id))
  }

  function Step(c: Config, s: State, e: Event): State
    requires Enabled(c, s, e)
  {
    match e
    case Queue(step) => s.(queue := Q.Step(c.queue, s.queue, step))
    case Direct(act) => s.(slots := M.Step(c.slots, s.slots, act))
    case Turn(w) =>
      var slots := M.Step(c.slots, s.slots, TurnEvent(s, w));
      if M.CanAcquire(c.slots, s.slots, slots.tasks[w].claim) then
        State(Q.Step(c.queue, s.queue, Q.Acquired(w)), slots)
      else s.(slots := slots)
    case SlotBack(w) => s.(slots := M.Step(c.slots, s.slots, M.Release(w)))
    case Report(w) => s.(queue := Q.Step(c.queue, s.queue, Q.Finish(w)))
    case CancelTurn(w) =>
      State(Q.Step(c.queue, s.queue, Q.CancelAcquire(w)), M.Step(c.slots, s.slots, M.CancelWait(w)))
  }

  ghost predicate IsRun(c: Config, s: State, es: seq<Event>)
    decreases |es|
  {
    es == [] || (Enabled(c, s, es[0]) && IsRun(c, Step(c, s, es[0]), es[1..]))
  }

  ghost function After(c: Config, s: State, es: seq<Event>): State
    requires IsRun(c, s, es)
    decreases |es|
  {
    if es == [] then s else After(c, Step(c, s, es[0]), es[1..])
  }

  ghost predicate Initial(c: Config, s: State) {
    Q.Initial(s.queue) && M.Initial(c.slots, s.slots)
  }

  // ----- The two machines agree -----

  /** How far a worker is with its slot, given where the queue sees it. */
  predicate LinkedAt(s: State, w: Q.Worker)
    requires w in s.queue.workers
  {
    match s.queue.workers[w]
    case Acquiring(id) =>
      w in s.slots.tasks ==> s.slots.tasks[w].claim == ClaimOf(s.queue, id) && !s.slots.tasks[w].stage.Holding?
    case Running(id) => w in s.slots.tasks && s.slots.tasks[w] == M.Entry(ClaimOf(s.queue, id), M.Holding)
    case Ending(id) => w in s.slots.tasks ==> s.slots.tasks[w] == M.Entry(ClaimOf(s.queue, id), M.Holding)
    case Aborting(id) => w in s.slots.tasks ==> s.slots.tasks[w] == M.Entry(ClaimOf(s.queue, id), M.Holding)
    case _ => w !in s.slots.tasks
  }

  ghost predicate Linked(s: State) {
    && (forall w :: w in s.queue.workers ==> LinkedAt(s, w))
    && (forall t :: t in s.slots.tasks ==> s.slots.tasks[t].claim.pool == Scheduler.POOL)
  }

  ghost predicate Inv(c: Config, s: State) {
    QueueInvariants.Inv(c.queue, s.queue) && M.Inv(c.slots, s.slots) && Linked(s)
  }

  /** A step of the queue that involves no slot moves no worker that is concerned with one, except
      that a worker on its way to get may take a request, without a slot, and that a runner may end. */
  lemma QueueLinked(c: Config, s: State, e: Q.Event)
    requires QueueInvariants.Inv(c.queue, s.queue) && Linked(s)
    requires !InvolvesSlot(e) && Q.Enabled(c.queue, s.queue, e)
    ensures Linked(s.(queue := Q.Step(c.queue, s.queue, e)))
  {
    var q := Q.Step(c.queue, s.queue, e);
    forall w | w in q.workers ensures LinkedAt(s.(queue := q), w) {
      PhaseKept(c, s.queue, e, w);
      assert LinkedAt(s, w);
      if Q.Holds(s.queue.workers[w]) {
        QueueTheorems.RequestsStay(c.queue, s.queue, e, s.queue.workers[w].id);
      }
    }
  }

  /** Where a queue step without slots may leave a worker that was in phase p. */
  predicate PhaseMay(p: Q.Phase, after: Q.Phase) {
    if Q.Holds(p) then after == p || (p.Running? && Q.IsOver(after) && after.id == p.id)
    else !after.Running? && !Q.IsOver(after)
  }

  lemma SubmitWorkers(c: Config, q: Q.State, p: Requests.Priority, deadline: int, woken: Option<Q.Worker>)
    ensures var ws := Q.SubmitStep(c.queue, q, p, deadline, woken).workers;
      ws == q.workers || ws == Q.NotifyOne(q.workers, woken)
  {
  }

  lemma NotifyKeepsPhase(ws: map<Q.Worker, Q.Phase>, woken: Option<Q.Worker>, w: Q.Worker)
    requires woken.Some? ==> woken.value in ws && ws[woken.value].Parked?
    requires w in Q.NotifyOne(ws, woken)
    ensures w in ws && PhaseMay(ws[w], ws[w]) && PhaseMay(ws[w], Q.NotifyOne(ws, woken)[w])
  {
  }

  lemma PassKeepsPhase(q: Q.State, v: Q.Worker, pick: Option<nat>, w: Q.Worker)
    requires v in q.workers && !Q.Holds(q.workers[v]) && w in Q.PassStep(q, v, pick).workers
    ensures w in q.workers && PhaseMay(q.workers[w], Q.PassStep(q, v, pick).workers[w])
  {
  }

  lemma PhaseKept(c: Config, q: Q.State, e: Q.Event, w: Q.Worker)
    requires !InvolvesSlot(e) && Q.Enabled(c.queue, q, e) && w in Q.Step(c.queue, q, e).workers
    ensures w in q.workers && PhaseMay(q.workers[w], Q.Step(c.queue, q, e).workers[w])
  {
    match e
    case Submit(p, deadline, woken) =>
      assert woken.Some? ==> woken.value in Q.ParkedIn(q.workers);
      SubmitWorkers(c, q, p, deadline, woken);
      NotifyKeepsPhase(q.workers, woken, w);
    case Pass(v, pick) => PassKeepsPhase(q, v, pick, w);
    case _ =>
  }

  lemma DirectLinked(c: Config, s: State, e: M.Event)
    requires Linked(s) && DirectOk(s, e) && M.Enabled(c.slots, s.slots, e)
    ensures Linked(s.(slots := M.Step(c.slots, s.slots, e)))
  {
    var u := s.(slots := M.Step(c.slots, s.slots, e));
    forall w | w in u.queue.workers ensures LinkedAt(u, w) {
      assert LinkedAt(s, w);
    }
  }

  /** A link depends only on the worker's phase and slot entry; waking a waiter does not break it. */
  lemma LinkFrame(s: State, u: State, w: Q.Worker)
    requires w in s.queue.workers && LinkedAt(s, w)
    requires w in u.queue.workers && u.queue.workers[w] == s.queue.workers[w]
    requires u.queue.requests == s.queue.requests
    requires w in u.slots.tasks <==> w in s.slots.tasks
    requires w in s.slots.tasks ==>
      u.slots.tasks[w].claim == s.slots.tasks[w].claim
      && (u.slots.tasks[w].stage.Holding? <==> s.slots.tasks[w].stage.Holding?)
    ensures LinkedAt(u, w)
  {
  }

  lemma TurnLinked(c: Config, s: State, w: Q.Worker)
    requires Linked(s) && Enabled(c, s, Turn(w))
    ensures Linked(Step(c, s, Turn(w)))
  {
    var u := Step(c, s, Turn(w));
    assert LinkedAt(s, w);
    forall v | v in u.queue.workers ensures LinkedAt(u, v) {
      if v != w {
        LinkFrame(s, u, v);
      }
    }
  }

  lemma SlotBackLinked(c: Config, s: State, w: Q.Worker)
    requires Linked(s) && Enabled(c, s, SlotBack(w))
    ensures Linked(Step(c, s, SlotBack(w)))
  {
    var u := Step(c, s, SlotBack(w));
    forall v | v in u.queue.workers ensures LinkedAt(u, v) {
      if v != w {
        LinkFrame(s, u, v);
      }
    }
  }

  /** A worker that leaves its request behind has no business with the scheduler any more. */
  lemma LeaveLinked(s: State, u: State, w: Q.Worker)
    requires Linked(s) && w in s.queue.workers
    requires u.slots.tasks == s.slots.tasks - {w} && u.queue.requests == s.queue.requests
    requires u.queue.workers == s.queue.workers[w := Q.Idle] || u.queue.workers == s.queue.workers[w := Q.Gone]
    ensures Linked(u)
  {
    forall v | v in u.queue.workers ensures LinkedAt(u, v) {
      if v != w {
        LinkFrame(s, u, v);
      }
    }
  }

  lemma TurnInv(c: Config, s: State, w: Q.Worker)
    requires Inv(c, s) && Enabled(c, s, Turn(w))
    ensures Inv(c, Step(c, s, Turn(w)))
  {
    M.InvStep(c.slots, s.slots, TurnEvent(s, w));
    QueueInvariants.InvStep(c.queue, s.queue, Q.Acquired(w));
    TurnLinked(c, s, w);
  }

  lemma FinishLinked(s: State, w: Q.Worker, id: nat)
    requires Linked(s) && w in s.queue.workers && w !in s.slots.tasks
    ensures Linked(s.(queue := Q.FinishStep(s.queue, w, id)))
    ensures Linked(s.(queue := Q.AbandonStep(s.queue, w, id, 1)))
  {
    assert s.slots.tasks == s.slots.tasks - {w};
    LeaveLinked(s, s.(queue := Q.FinishStep(s.queue, w, id)), w);
    LeaveLinked(s, s.(queue := Q.AbandonStep(s.queue, w, id, 1)), w);
  }

  lemma ReportInv(c: Config, s: State, w: Q.Worker)
    requires Inv(c, s) && Enabled(c, s, Report(w))
    ensures Inv(c, Step(c, s, Report(w)))
  {
    QueueInvariants.InvStep(c.queue, s.queue, Q.Finish(w));
    FinishLinked(s, w, s.queue.workers[w].id);
  }

  lemma CancelTurnInv(c: Config, s: State, w: Q.Worker)
    requires Inv(c, s) && Enabled(c, s, CancelTurn(w))
    ensures Inv(c, Step(c, s, CancelTurn(w)))
  {
    QueueInvariants.InvStep(c.queue, s.queue, Q.CancelAcquire(w));
    M.InvStep(c.slots, s.slots, M.CancelWait(w));
    LeaveLinked(s, Step(c, s, CancelTurn(w)), w);
  }

  lemma InvStep(c: Config, s: State, e: Event)
    requires Inv(c, s) && Enabled(c, s, e)
    ensures Inv(c, Step(c, s, e))
  {
    match e
    case Queue(step) =>
      QueueInvariants.InvStep(c.queue, s.queue, step);
      QueueLinked(c, s, step);
    case Direct(act) =>
      M.InvStep(c.slots, s.slots, act);
      DirectLinked(c, s, act);
    case Turn(w) => TurnInv(c, s, w);
    case SlotBack(w) =>
      M.InvStep(c.slots, s.slots, M.Release(w));
      SlotBackLinked(c, s, w);
    case Report(w) => ReportInv(c, s, w);
    case CancelTurn(w) => CancelTurnInv(c, s, w);
  }

  lemma {:induction false} InvRun(c: Config, s: State, es: seq<Event>)
    requires Inv(c, s) && IsRun(c, s, es)
    ensures Inv(c, After(c, s, es))
    decreases |es|
  {
    if es != [] {
      InvStep(c, s, es[0]);
      InvRun(c, Step(c, s, es[0]), es[1..]);
    }
  }

  lemma InvInitial(c: Config, s: State)
    requires Initial(c, s)
    ensures Inv(c, s)
  {
    QueueInvariants.InvInitial(c.queue, s.queue);
    M.InvInitial(c.slots, s.slots);
  }

  // ----- What the combination guarantees -----

  function SlotHolders(s: State): set<M.Task> {
    set t | t in s.slots.tasks && s.slots.tasks[t].stage.Holding?
  }

  lemma HoldersByClass(s: State)
    requires Linked(s)
    ensures SlotHolders(s) == M.Holders(s.slots, M.Claim(Scheduler.POOL, true))
                              + M.Holders(s.slots, M.Claim(Scheduler.POOL, false))
  {
  }

  /** Queue workers and immediate requests together never hold more slots than the total capacity. */
  lemma TotalCapacityHolds(c: Config, s0: State, es: seq<Event>)
    requires Initial(c, s0) && IsRun(c, s0, es)
    ensures |SlotHolders(After(c, s0, es))| <= c.slots.maxForeground + c.slots.maxBackground
  {
    InvInitial(c, s0);
    InvRun(c, s0, es);
    var s := After(c, s0, es);
    M.PoolTotal(c.slots, s.slots, Scheduler.POOL);
    HoldersByClass(s);
  }

  /** Nothing can move unless a runner ends, somebody outside acts, or the clock advances. */
  ghost predicate Stuck(s: State) {
    && (forall w :: w in s.queue.workers ==> !s.queue.workers[w].Idle? && !s.queue.workers[w].Notified?)
    && (forall w :: Acquiring(s, w) ==> w in s.slots.tasks)
    && (forall w :: w in s.queue.workers ==> !Over(s, w))
    && (forall t :: t in s.slots.tasks ==> !s.slots.tasks[t].stage.Notified?)
  }

  ghost predicate Alive(s: State, w: Q.Worker) {
    w in s.queue.workers && !s.queue.workers[w].Gone?
  }

  /** Somebody holds a slot, and every queue worker that does is inside its runner. */
  ghost predicate SomeoneRuns(s: State) {
    exists h :: h in SlotHolders(s) && (h in s.queue.workers ==> Running(s, h))
  }

  lemma HolderRuns(s: State, h: M.Task)
    requires Linked(s) && Stuck(s) && h in SlotHolders(s)
    ensures SomeoneRuns(s)
  {
    if h in s.queue.workers {
      assert LinkedAt(s, h);
    }
  }

  /** A worker that waits for a slot is waiting for somebody who holds one. */
  lemma WaiterHasHolder(c: Config, s: State, w: Q.Worker)
    requires M.Inv(c.slots, s.slots) && w in s.slots.tasks && s.slots.tasks[w].stage.Parked?
    requires c.slots.capacity == Some(c.slots.maxForeground + c.slots.maxBackground) && s.slots.limits.background > 0
    ensures exists h :: h in SlotHolders(s)
  {
    if s.slots.tasks[w].claim.foreground {
      M.ParkedForeground(c.slots, s.slots, w);
    } else {
      M.ParkedBackground(c.slots, s.slots, w);
    }
    var h :| M.Blocks(s.slots, h, w);
    assert h in SlotHolders(s);
  }

  lemma StuckWorkerWaits(c: Config, s: State, w: Q.Worker)
    requires Inv(c, s) && Stuck(s) && !s.queue.lifecycle.Paused? && s.queue.queued != {} && Alive(s, w)
    ensures w in s.slots.tasks && !s.slots.tasks[w].stage.Notified?
  {
    QueueTheorems.InvMeansBusy(c.queue, s.queue);
    assert LinkedAt(s, w);
    assert Acquiring(s, w) || Running(s, w) || Over(s, w);
  }

  /** No deadlock between queue and scheduler: with work queued, the queue not paused, background
      slots allowed and one worker alive, a state in which nobody can move on its own is one in
      which somebody is inside a runner and will give a slot back. */
  lemma NoDeadlock(c: Config, s0: State, es: seq<Event>, w: Q.Worker)
    requires Initial(c, s0) && IsRun(c, s0, es)
    requires c.slots.capacity == Some(c.slots.maxForeground + c.slots.maxBackground)
    requires var s := After(c, s0, es);
      && Stuck(s) && !s.queue.lifecycle.Paused? && s.queue.queued != {} && s.slots.limits.background > 0
      && Alive(s, w)
    ensures SomeoneRuns(After(c, s0, es))
  {
    InvInitial(c, s0);
    InvRun(c, s0, es);
    var s := After(c, s0, es);
    StuckWorkerWaits(c, s, w);
    if s.slots.tasks[w].stage.Parked? {
      WaiterHasHolder(c, s, w);
      var h :| h in SlotHolders(s);
      HolderRuns(s, h);
    } else {
      HolderRuns(s, w);
    }
  }

  /** A queue worker inside its runner holds a slot of exactly its request's class; it gives the slot
      back only when the runner is over, and reports to the queue only when the slot is back. */
  lemma RunnersHoldTheirSlot(c: Config, s0: State, es: seq<Event>, w: Q.Worker)
    requires Initial(c, s0) && IsRun(c, s0, es) && Running(After(c, s0, es), w)
    ensures var s := After(c, s0, es); var id := s.queue.workers[w].id;
      && id in s.queue.requests && w in s.slots.tasks
      && s.slots.tasks[w] ==
           M.Entry(M.Claim(Scheduler.POOL,
                           s.queue.requests[id].priority in {Requests.Foreground, Requests.Interactive}), M.Holding)
  {
    InvInitial(c, s0);
    InvRun(c, s0, es);
    assert LinkedAt(After(c, s0, es), w);
  }
}
