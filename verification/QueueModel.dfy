/**
 The request queue and its workers as a state machine. Each event is the code that runs
 between two awaits of one task, at one instant of the clock; every interleaving of
 submitters, workers and operators is a sequence of events.
 */
module QueueModel {
  import opened Common
  import opened Requests

  type Worker = nat

  datatype Lifecycle = Accepting | Paused | Draining | Closed

  datatype Future = Pending | Resolved | Failed | TimedOut | Cancelled

  /** Where a worker task stands: about to call get, parked on the condition variable, notified but
      not yet resumed, waiting for a capacity slot, inside the runner, past a runner that returned or
      raised, past a runner that was cancelled, or ended. */
  datatype Phase =
    | Idle | Parked | Notified
    | Acquiring(id: nat) | Running(id: nat) | Ending(id: nat) | Aborting(id: nat)
    | Gone

  datatype Config = Config(maxSize: nat, interval: int)

  /** `requests` and `futures` cover every request ever accepted; `queued` are those in the heap;
      `flagged` those whose submitter has marked them cancelled; `abandoned` (history only) those
      whose worker task was cancelled while holding them. */
  datatype State = State(
    now: int,
    lifecycle: Lifecycle,
    issued: nat,
    requests: Table,
    futures: map<nat, Future>,
    queued: set<nat>,
    flagged: set<nat>,
    abandoned: set<nat>,
    workers: map<Worker, Phase>,
    runningForeground: int,
    runningBackground: int,
    completed: int,
    rejected: int)

  datatype Event =
    | Submit(priority: Priority, deadline: int, woken: Option<Worker>)
    | Pass(worker: Worker, pick: Option<nat>)
    | Acquired(worker: Worker)
    | EndRun(worker: Worker, ok: bool)
    | CancelRun(worker: Worker)
    | Finish(worker: Worker)
    | CancelAcquire(worker: Worker)
    | CancelFuture(id: nat)
    | ObserveCancel(id: nat)
    | Pause
    | Resume
    | Drain
    | Close
    | Tick(to: int)

  // ----- Derived views -----

  predicate Holds(p: Phase) {
    p.Acquiring? || p.Running? || IsOver(p)
  }

  /** The runner is over; giving the slot back and the bookkeeping are still to come. */
  predicate IsOver(p: Phase) {
    p.Ending? || p.Aborting?
  }

  predicate HeldBy(s: State, id: nat, w: Worker) {
    w in s.workers && Holds(s.workers[w]) && s.workers[w].id == id
  }

  function ParkedIn(ws: map<Worker, Phase>): set<Worker> {
    set w | w in ws && ws[w].Parked?
  }

  function NotifiedIn(ws: map<Worker, Phase>): set<Worker> {
    set w | w in ws && ws[w].Notified?
  }

  predicate ClassOf(t: Table, id: nat, foreground: bool) {
    id in t && IsForeground(t[id].priority) == foreground
  }

  /** Workers holding a request of the given class. */
  function HoldersIn(ws: map<Worker, Phase>, t: Table, foreground: bool): set<Worker> {
    set w | w in ws && Holds(ws[w]) && ClassOf(t, ws[w].id, foreground)
  }

  predicate IsLive(s: State, id: nat) {
    id in s.requests && id !in s.flagged && s.now < s.requests[id].deadline
  }

  function Live(s: State): set<nat> {
    set id | id in s.queued && IsLive(s, id)
  }

  /** The requests that the next discard expires. */
  function Expiring(s: State): set<nat> {
    set id | id in s.queued && id in s.requests && id !in s.flagged && s.requests[id].deadline <= s.now
  }

  // ----- Steps -----

  /** A future is settled at most once: an outcome reaches only pending ones. */
  function Settle(fs: map<nat, Future>, ids: set<nat>, outcome: Future): map<nat, Future> {
    map id | id in fs :: if id in ids && fs[id].Pending? then outcome else fs[id]
  }

  lemma SettleTwice(fs: map<nat, Future>, a: set<nat>, b: set<nat>, outcome: Future)
    requires !outcome.Pending?
    ensures Settle(Settle(fs, a, outcome), b, outcome) == Settle(fs, a + b, outcome)
  {
  }

  function Discard(s: State): State {
    s.(queued := Live(s), futures := Settle(s.futures, Expiring(s), TimedOut))
  }

  datatype Verdict = Accepted | RejectedClosed | RejectedBackground | RejectedFull

  function VerdictOf(c: Config, s: State, p: Priority): Verdict {
    if s.lifecycle.Closed? then RejectedClosed
    else if (s.lifecycle.Paused? || s.lifecycle.Draining?) && IsBackground(p) then RejectedBackground
    else if |Live(s)| >= c.maxSize then RejectedFull
    else Accepted
  }

  function NotifyOne(ws: map<Worker, Phase>, woken: Option<Worker>): map<Worker, Phase> {
    match woken
    case None => ws
    case Some(w) => ws[w := Notified]
  }

  function NotifyAll(ws: map<Worker, Phase>): map<Worker, Phase> {
    map w | w in ws :: if ws[w].Parked? then Notified else ws[w]
  }

  /** The counters are adjusted through a clamp at zero, as in the source. */
  function MarkRunning(s: State, id: nat, delta: int): State {
    if ClassOf(s.requests, id, true) then s.(runningForeground := Max(0, s.runningForeground + delta))
    else s.(runningBackground := Max(0, s.runningBackground + delta))
  }

  function Enqueue(s: State, p: Priority, deadline: int, woken: Option<Worker>): State {
    s.(issued := s.issued + 1,
       requests := s.requests[s.issued := Request(p, s.now, deadline)],
       futures := s.futures[s.issued := Pending],
       queued := s.queued + {s.issued},
       workers := NotifyOne(s.workers, woken))
  }

  function Reject(s: State): State {
    s.(rejected := s.rejected + 1)
  }

  function SubmitStep(c: Config, s: State, p: Priority, deadline: int, woken: Option<Worker>): State {
    match VerdictOf(c, s, p)
    case RejectedClosed => Reject(s)
    case RejectedBackground => Reject(s)
    case RejectedFull => Reject(Discard(s))
    case Accepted => Enqueue(Discard(s), p, deadline, woken)
  }

  predicate Stops(s: State) {
    s.lifecycle.Closed? && s.queued == {}
  }

  function Take(s: State, w: Worker, id: nat): State {
    MarkRunning(s.(queued := s.queued - {id}, workers := s.workers[w := Acquiring(id)]), id, 1)
  }

  function PassStep(s: State, w: Worker, pick: Option<nat>): State {
    if Stops(s) then s.(workers := s.workers[w := Gone])
    else
      match pick
      case None => Discard(s).(workers := s.workers[w := Parked])
      case Some(id) => Take(Discard(s), w, id)
  }

  /** The runner returns or raises: its outcome reaches the future before anything else happens. */
  function EndRunStep(s: State, w: Worker, id: nat, ok: bool): State {
    s.(workers := s.workers[w := Ending(id)],
       futures := Settle(s.futures, {id}, if ok then Resolved else Failed))
  }

  function FinishStep(s: State, w: Worker, id: nat): State {
    MarkRunning(s.(workers := s.workers[w := Idle], completed := s.completed + 1), id, -1)
  }

  /** A worker whose task was cancelled gives the request up and ends. */
  function AbandonStep(s: State, w: Worker, id: nat, ended: int): State {
    MarkRunning(s.(workers := s.workers[w := Gone],
                   abandoned := s.abandoned + {id},
                   completed := s.completed + ended), id, -1)
  }

  function SetLifecycle(s: State, l: Lifecycle): State {
    if s.lifecycle.Closed? then s else s.(lifecycle := l, workers := NotifyAll(s.workers))
  }

  function CloseStep(s: State): State {
    s.(lifecycle := Closed,
       queued := {},
       flagged := s.flagged + s.queued,
       futures := Settle(s.futures, s.queued, Cancelled),
       workers := NotifyAll(s.workers))
  }

  function Step(c: Config, s: State, e: Event): State
    requires Enabled(c, s, e)
  {
    match e
    case Submit(p, deadline, woken) => SubmitStep(c, s, p, deadline, woken)
    case Pass(w, pick) => PassStep(s, w, pick)
    case Acquired(w) => s.(workers := s.workers[w := Running(s.workers[w].id)])
    case EndRun(w, ok) => EndRunStep(s, w, s.workers[w].id, ok)
    case CancelRun(w) => s.(workers := s.workers[w := Aborting(s.workers[w].id)])
    case Finish(w) =>
      if s.workers[w].Aborting? then AbandonStep(s, w, s.workers[w].id, 1) else FinishStep(s, w, s.workers[w].id)
    case CancelAcquire(w) => AbandonStep(s, w, s.workers[w].id, 0)
    case CancelFuture(id) => s.(futures := Settle(s.futures, {id}, Cancelled))
    case ObserveCancel(id) => s.(flagged := s.flagged + {id})
    case Pause => SetLifecycle(s, Paused)
    case Resume => SetLifecycle(s, Accepting)
    case Drain => SetLifecycle(s, Draining)
    case Close => CloseStep(s)
    case Tick(to) => s.(now := to)
  }

  /** notify() wakes a parked worker whenever there is one. */
  predicate WokenOk(c: Config, s: State, p: Priority, woken: Option<Worker>) {
    match woken
    case None => VerdictOf(c, s, p).Accepted? ==> ParkedIn(s.workers) == {}
    case Some(w) => VerdictOf(c, s, p).Accepted? && w in ParkedIn(s.workers)
  }

  /** A pass of get takes the first live request, and only when the queue is not paused. */
  ghost predicate PickOk(c: Config, s: State, pick: Option<nat>) {
    match pick
    case None => Stops(s) || Live(s) == {} || s.lifecycle.Paused?
    case Some(id) => !Stops(s) && !s.lifecycle.Paused? && IsFirst(s.requests, id, Live(s), s.now, c.interval)
  }

  ghost predicate Enabled(c: Config, s: State, e: Event) {
    match e
    case Submit(p, _, woken) => WokenOk(c, s, p, woken)
    case Pass(w, pick) => w in s.workers && (s.workers[w].Idle? || s.workers[w].Notified?) && PickOk(c, s, pick)
    case Acquired(w) => w in s.workers && s.workers[w].Acquiring?
    case EndRun(w, _) => w in s.workers && s.workers[w].Running?
    case CancelRun(w) => w in s.workers && s.workers[w].Running?
    case Finish(w) => w in s.workers && IsOver(s.workers[w])
    case CancelAcquire(w) => w in s.workers && s.workers[w].Acquiring?
    case CancelFuture(id) => id in s.futures
    case ObserveCancel(id) => id in s.futures && !s.futures[id].Pending?
    case Pause => true
    case Resume => true
    case Drain => true
    case Close => true
    case Tick(to) => s.now <= to
  }

  ghost predicate Initial(s: State) {
    && s.lifecycle.Accepting? && s.issued == 0 && s.requests == map[] && s.futures == map[]
    && s.queued == {} && s.flagged == {} && s.abandoned == {}
    && (forall w :: w in s.workers ==> s.workers[w].Idle?)
    && s.runningForeground == 0 && s.runningBackground == 0 && s.completed == 0 && s.rejected == 0
  }

  // ----- Runs -----

  ghost predicate IsRun(c: Config, s: State, es: seq<Event>)
    decreases |es|
  {
    es == [] || (Enabled(c, s, es[0]) && IsRun(c, Step(c, s, es[0]), es[1..]))
  }

  ghost function After(c: Config, s: State, es: seq<Event>): State
    requires IsRun(c, s, es)
    decreases |es|
  {
    if es == [] then s else After(c, Step(c, s, es[0]), es[1..])
  }

  ghost predicate Reachable(c: Config, s: State) {
    exists s0, es :: Initial(s0) && IsRun(c, s0, es) && After(c, s0, es) == s
  }
}
