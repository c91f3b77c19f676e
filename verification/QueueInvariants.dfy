/** What every step of the queue keeps, hence what holds in every reachable state. */
module QueueInvariants {
  import opened Common
  import opened Requests
  import opened QueueModel

  /** Sequence numbers are dense and follow enqueue times. */
  ghost predicate Sequenced(s: State) {
    && (forall id: nat :: id in s.requests <==> id < s.issued)
    && s.futures.Keys == s.requests.Keys
    && s.queued <= s.requests.Keys
    && (forall id :: id in s.requests ==> s.requests[id].enqueuedAt <= s.now)
    && (forall i, j :: i in s.requests && j in s.requests && i < j ==>
          s.requests[i].enqueuedAt <= s.requests[j].enqueuedAt)
  }

  /** A held request is held by one worker only and is neither queued nor abandoned. */
  ghost predicate Placed(s: State) {
    && (forall w :: w in s.workers && Holds(s.workers[w]) ==>
          var id := s.workers[w].id;
          id in s.requests && id !in s.queued && id !in s.abandoned)
    && (forall v, w | v in s.workers && w in s.workers && Holds(s.workers[v]) && Holds(s.workers[w]) ::
          s.workers[v].id == s.workers[w].id ==> v == w)
    && (forall id :: id in s.abandoned ==> id in s.requests && id !in s.queued)
  }

  /** An accepted request that is nowhere any more has a settled future; a queued one can only
      be pending or cancelled by its submitter; a flagged one and one whose runner returned are settled. */
  ghost predicate Accounted(s: State) {
    && (forall id :: id in s.futures && s.futures[id].Pending? ==>
          id in s.queued || id in s.abandoned || exists w :: HeldBy(s, id, w))
    && (forall id :: id in s.queued && id in s.futures ==> s.futures[id].Pending? || s.futures[id].Cancelled?)
    && (forall id :: id in s.flagged ==> id in s.futures && !s.futures[id].Pending?)
    && (forall w :: w in s.workers && s.workers[w].Ending? ==>
          s.workers[w].id in s.futures && !s.futures[s.workers[w].id].Pending?)
  }

  /** The running counters count exactly the workers that hold a request of the class. */
  ghost predicate Counted(s: State) {
    && s.runningForeground == |HoldersIn(s.workers, s.requests, true)|
    && s.runningBackground == |HoldersIn(s.workers, s.requests, false)|
  }

  ghost predicate Bounded(c: Config, s: State) {
    && |s.queued| <= c.maxSize
    && (s.lifecycle.Closed? ==> s.queued == {})
  }

  /** No lost wakeup: unless paused, while some worker is parked there are at least as many
      notified workers on their way as there are queue items. */
  ghost predicate Awake(s: State) {
    !s.lifecycle.Paused? && ParkedIn(s.workers) != {} ==> |NotifiedIn(s.workers)| >= |s.queued|
  }

  ghost predicate Inv(c: Config, s: State) {
    Sequenced(s) && Placed(s) && Accounted(s) && Counted(s) && Bounded(c, s) && Awake(s)
  }

  ghost predicate Safe(s: State) {
    Sequenced(s) && Placed(s) && Accounted(s)
  }

  // ----- Sequencing, placement and settlement, one step function at a time -----

  lemma DiscardSafe(s: State)
    requires Safe(s)
    ensures Safe(Discard(s))
  {
    var d := Discard(s);
    forall id, w | HeldBy(s, id, w) ensures HeldBy(d, id, w) {}
  }

  lemma EnqueueSequenced(s: State, p: Priority, deadline: int, woken: Option<Worker>)
    requires Sequenced(s)
    ensures Sequenced(Enqueue(s, p, deadline, woken))
  {
  }

  lemma EnqueuePlaced(s: State, p: Priority, deadline: int, woken: Option<Worker>)
    requires Sequenced(s) && Placed(s)
    requires woken.Some? ==> woken.value in ParkedIn(s.workers)
    ensures Placed(Enqueue(s, p, deadline, woken))
  {
    assert s.issued !in s.requests;
  }

  lemma EnqueueSafe(s: State, p: Priority, deadline: int, woken: Option<Worker>)
    requires Safe(s)
    requires woken.Some? ==> woken.value in ParkedIn(s.workers)
    ensures Safe(Enqueue(s, p, deadline, woken))
  {
    EnqueueSequenced(s, p, deadline, woken);
    EnqueuePlaced(s, p, deadline, woken);
    EnqueueAccounted(s, p, deadline, woken);
  }

  lemma EnqueueAccounted(s: State, p: Priority, deadline: int, woken: Option<Worker>)
    requires Sequenced(s) && Accounted(s)
    requires woken.Some? ==> woken.value in ParkedIn(s.workers)
    ensures Accounted(Enqueue(s, p, deadline, woken))
  {
    var t := Enqueue(s, p, deadline, woken);
    forall id, w | HeldBy(s, id, w) ensures HeldBy(t, id, w) {}
  }

  lemma RestSafe(s: State, w: Worker, phase: Phase)
    requires Safe(s) && w in s.workers && !Holds(s.workers[w]) && !Holds(phase)
    ensures Safe(s.(workers := s.workers[w := phase]))
  {
    var t := s.(workers := s.workers[w := phase]);
    forall id, v | HeldBy(s, id, v) ensures HeldBy(t, id, v) {}
  }

  lemma TakePlaced(s: State, w: Worker, id: nat)
    requires Sequenced(s) && Placed(s) && w in s.workers && !Holds(s.workers[w]) && id in s.queued
    ensures Placed(Take(s, w, id))
  {
  }

  lemma TakeAccounted(s: State, w: Worker, id: nat)
    requires Accounted(s) && w in s.workers && !Holds(s.workers[w]) && id in s.queued
    ensures Accounted(Take(s, w, id))
  {
    var t := Take(s, w, id);
    assert HeldBy(t, id, w);
    forall i, v | HeldBy(s, i, v) ensures HeldBy(t, i, v) {}
  }

  lemma TakeSafe(s: State, w: Worker, id: nat)
    requires Safe(s) && w in s.workers && !Holds(s.workers[w]) && id in s.queued
    ensures Safe(Take(s, w, id))
  {
    TakePlaced(s, w, id);
    TakeAccounted(s, w, id);
  }

  /** A holder moves on with the same request; towards Ending only with the future settled. */
  lemma MoveSafe(s: State, w: Worker, phase: Phase)
    requires Safe(s) && w in s.workers && Holds(s.workers[w]) && Holds(phase) && phase.id == s.workers[w].id
    requires phase.Ending? ==> phase.id in s.futures && !s.futures[phase.id].Pending?
    ensures Safe(s.(workers := s.workers[w := phase]))
  {
    var t := s.(workers := s.workers[w := phase]);
    forall i, v | HeldBy(s, i, v) ensures HeldBy(t, i, v) {}
  }

  lemma SettleSafe(s: State, id: nat, outcome: Future)
    requires Safe(s) && id !in s.queued && !outcome.Pending?
    ensures Safe(s.(futures := Settle(s.futures, {id}, outcome)))
  {
    var t := s.(futures := Settle(s.futures, {id}, outcome));
    forall i, v | HeldBy(s, i, v) ensures HeldBy(t, i, v) {}
  }

  lemma EndRunSafe(s: State, w: Worker, id: nat, ok: bool)
    requires Safe(s) && HeldBy(s, id, w)
    ensures Safe(EndRunStep(s, w, id, ok))
  {
    var outcome := if ok then Resolved else Failed;
    SettleSafe(s, id, outcome);
    MoveSafe(s.(futures := Settle(s.futures, {id}, outcome)), w, Ending(id));
  }

  /** A worker lets its request go: nobody else held it. */
  lemma LetGoPlaced(s: State, w: Worker, phase: Phase)
    requires Sequenced(s) && Placed(s) && w in s.workers && !Holds(phase)
    ensures Placed(s.(workers := s.workers[w := phase]))
  {
  }

  lemma FinishAccounted(s: State, w: Worker, id: nat)
    requires Accounted(s) && w in s.workers && s.workers[w] == Ending(id)
    ensures Accounted(FinishStep(s, w, id))
  {
    var t := FinishStep(s, w, id);
    forall i, v | HeldBy(s, i, v) && v != w ensures HeldBy(t, i, v) {}
  }

  lemma FinishSafe(s: State, w: Worker, id: nat)
    requires Safe(s) && w in s.workers && s.workers[w] == Ending(id)
    ensures Safe(FinishStep(s, w, id))
  {
    LetGoPlaced(s, w, Idle);
    FinishAccounted(s, w, id);
  }

  lemma AbandonPlaced(s: State, w: Worker, id: nat, ended: int)
    requires Sequenced(s) && Placed(s) && HeldBy(s, id, w)
    ensures Placed(AbandonStep(s, w, id, ended))
  {
  }

  lemma AbandonAccounted(s: State, w: Worker, id: nat, ended: int)
    requires Accounted(s) && HeldBy(s, id, w)
    ensures Accounted(AbandonStep(s, w, id, ended))
  {
    var t := AbandonStep(s, w, id, ended);
    forall i, v | HeldBy(s, i, v) && v != w ensures HeldBy(t, i, v) {}
  }

  lemma AbandonSafe(s: State, w: Worker, id: nat, ended: int)
    requires Safe(s) && HeldBy(s, id, w)
    ensures Safe(AbandonStep(s, w, id, ended))
  {
    AbandonPlaced(s, w, id, ended);
    AbandonAccounted(s, w, id, ended);
  }

  lemma OverSafe(s: State, w: Worker)
    requires Safe(s) && w in s.workers && IsOver(s.workers[w])
    ensures var id := s.workers[w].id;
      Safe(if s.workers[w].Aborting? then AbandonStep(s, w, id, 1) else FinishStep(s, w, id))
  {
    if s.workers[w].Aborting? {
      AbandonSafe(s, w, s.workers[w].id, 1);
    } else {
      FinishSafe(s, w, s.workers[w].id);
    }
  }

  lemma LifecycleSafe(s: State, l: Lifecycle)
    requires Safe(s)
    ensures Safe(SetLifecycle(s, l))
  {
    var t := SetLifecycle(s, l);
    forall i, v | HeldBy(s, i, v) ensures HeldBy(t, i, v) {}
  }

  lemma CloseSafe(s: State)
    requires Safe(s)
    ensures Safe(CloseStep(s))
  {
    var t := CloseStep(s);
    forall i, v | HeldBy(s, i, v) ensures HeldBy(t, i, v) {}
  }

  lemma SubmitterSafe(c: Config, s: State, e: Event)
    requires e.CancelFuture? || e.ObserveCancel? || e.Tick?
    requires Safe(s) && Enabled(c, s, e)
    ensures Safe(Step(c, s, e))
  {
    var t := Step(c, s, e);
    forall i, v | HeldBy(s, i, v) ensures HeldBy(t, i, v) {}
  }

  lemma RejectSafe(s: State)
    requires Safe(s)
    ensures Safe(Reject(s))
  {
    var t := Reject(s);
    forall i, v | HeldBy(s, i, v) ensures HeldBy(t, i, v) {}
  }

  lemma AcceptSafe(s: State, p: Priority, deadline: int, woken: Option<Worker>)
    requires Safe(s)
    requires woken.Some? ==> woken.value in ParkedIn(s.workers)
    ensures Safe(Enqueue(Discard(s), p, deadline, woken))
  {
    DiscardSafe(s);
    EnqueueSafe(Discard(s), p, deadline, woken);
  }

  lemma FullSafe(s: State)
    requires Safe(s)
    ensures Safe(Reject(Discard(s)))
  {
    DiscardSafe(s);
    RejectSafe(Discard(s));
  }

  lemma SubmitSafe(c: Config, s: State, p: Priority, deadline: int, woken: Option<Worker>)
    requires Safe(s) && WokenOk(c, s, p, woken)
    ensures Safe(SubmitStep(c, s, p, deadline, woken))
  {
    match VerdictOf(c, s, p)
    case Accepted => AcceptSafe(s, p, deadline, woken);
    case RejectedFull => FullSafe(s);
    case _ => RejectSafe(s);
  }

  lemma PassSafe(c: Config, s: State, w: Worker, pick: Option<nat>)
    requires Safe(s) && Enabled(c, s, Pass(w, pick))
    ensures Safe(PassStep(s, w, pick))
  {
    if Stops(s) {
      RestSafe(s, w, Gone);
    } else {
      DiscardSafe(s);
      match pick
      case None => RestSafe(Discard(s), w, Parked);
      case Some(id) => TakeSafe(Discard(s), w, id);
    }
  }

  lemma SafeStep(c: Config, s: State, e: Event)
    requires Safe(s) && Enabled(c, s, e)
    ensures Safe(Step(c, s, e))
  {
    match e
    case Submit(p, deadline, woken) => SubmitSafe(c, s, p, deadline, woken);
    case Pass(w, pick) => PassSafe(c, s, w, pick);
    case Acquired(w) => MoveSafe(s, w, Running(s.workers[w].id));
    case EndRun(w, ok) => EndRunSafe(s, w, s.workers[w].id, ok);
    case CancelRun(w) => MoveSafe(s, w, Aborting(s.workers[w].id));
    case Finish(w) => OverSafe(s, w);
    case CancelAcquire(w) => AbandonSafe(s, w, s.workers[w].id, 0);
    case Pause => LifecycleSafe(s, Paused);
    case Resume => LifecycleSafe(s, Accepting);
    case Drain => LifecycleSafe(s, Draining);
    case Close => CloseSafe(s);
    case CancelFuture(_) => SubmitterSafe(c, s, e);
    case ObserveCancel(_) => SubmitterSafe(c, s, e);
    case Tick(_) => SubmitterSafe(c, s, e);
  }

  // ----- Running counters -----

  lemma HoldersGain(ws: map<Worker, Phase>, t: Table, w: Worker, id: nat)
    requires w in ws && !Holds(ws[w]) && id in t
    ensures var fg := IsForeground(t[id].priority); var ws' := ws[w := Acquiring(id)];
      && HoldersIn(ws', t, fg) == HoldersIn(ws, t, fg) + {w} && w !in HoldersIn(ws, t, fg)
      && HoldersIn(ws', t, !fg) == HoldersIn(ws, t, !fg)
  {
  }

  lemma HoldersLose(ws: map<Worker, Phase>, t: Table, w: Worker, phase: Phase)
    requires w in ws && Holds(ws[w]) && ws[w].id in t && !Holds(phase)
    ensures var fg := IsForeground(t[ws[w].id].priority); var ws' := ws[w := phase];
      && HoldersIn(ws', t, fg) == HoldersIn(ws, t, fg) - {w} && w in HoldersIn(ws, t, fg)
      && HoldersIn(ws', t, !fg) == HoldersIn(ws, t, !fg)
  {
  }

  /** Changing only phases that hold nothing, or moving a holder into its runner, keeps the holders. */
  lemma HoldersSame(ws: map<Worker, Phase>, ws': map<Worker, Phase>, t: Table, fg: bool)
    requires ws.Keys == ws'.Keys
    requires forall w :: w in ws ==> (Holds(ws[w]) <==> Holds(ws'[w])) && (Holds(ws[w]) ==> ws'[w].id == ws[w].id)
    ensures HoldersIn(ws', t, fg) == HoldersIn(ws, t, fg)
  {
  }

  lemma EnqueueCounted(s: State, p: Priority, deadline: int, woken: Option<Worker>)
    requires Safe(s) && Counted(s)
    requires woken.Some? ==> woken.value in ParkedIn(s.workers)
    ensures Counted(Enqueue(s, p, deadline, woken))
  {
    var t := Enqueue(s, p, deadline, woken);
    HoldersSame(s.workers, t.workers, s.requests, true);
    HoldersSame(s.workers, t.workers, s.requests, false);
    assert HoldersIn(t.workers, t.requests, true) == HoldersIn(t.workers, s.requests, true);
    assert HoldersIn(t.workers, t.requests, false) == HoldersIn(t.workers, s.requests, false);
  }

  lemma SubmitCounted(c: Config, s: State, p: Priority, deadline: int, woken: Option<Worker>)
    requires Safe(s) && Counted(s) && WokenOk(c, s, p, woken)
    ensures Counted(SubmitStep(c, s, p, deadline, woken))
  {
    if VerdictOf(c, s, p).Accepted? {
      DiscardSafe(s);
      EnqueueCounted(Discard(s), p, deadline, woken);
    }
  }

  lemma RestCounted(s: State, w: Worker, phase: Phase)
    requires Counted(s) && w in s.workers && !Holds(s.workers[w]) && !Holds(phase)
    ensures Counted(s.(workers := s.workers[w := phase]))
  {
    HoldersSame(s.workers, s.workers[w := phase], s.requests, true);
    HoldersSame(s.workers, s.workers[w := phase], s.requests, false);
  }

  lemma TakeCounted(s: State, w: Worker, id: nat)
    requires Counted(s) && w in s.workers && !Holds(s.workers[w]) && id in s.requests
    ensures Counted(Take(s, w, id))
  {
    HoldersGain(s.workers, s.requests, w, id);
  }

  lemma PassCounted(c: Config, s: State, w: Worker, pick: Option<nat>)
    requires Safe(s) && Counted(s) && Enabled(c, s, Pass(w, pick))
    ensures Counted(PassStep(s, w, pick))
  {
    if Stops(s) {
      RestCounted(s, w, Gone);
    } else if pick.None? {
      RestCounted(Discard(s), w, Parked);
    } else {
      TakeCounted(Discard(s), w, pick.value);
    }
  }

  lemma LeaveCounted(s: State, w: Worker, id: nat, ended: int)
    requires Safe(s) && Counted(s) && HeldBy(s, id, w)
    ensures Counted(FinishStep(s, w, id)) && Counted(AbandonStep(s, w, id, ended))
  {
    HoldersLose(s.workers, s.requests, w, Idle);
    HoldersLose(s.workers, s.requests, w, Gone);
  }

  lemma MoveCounted(s: State, w: Worker, phase: Phase)
    requires w in s.workers && Holds(s.workers[w]) && Holds(phase) && phase.id == s.workers[w].id
    ensures HoldersIn(s.workers[w := phase], s.requests, true) == HoldersIn(s.workers, s.requests, true)
    ensures HoldersIn(s.workers[w := phase], s.requests, false) == HoldersIn(s.workers, s.requests, false)
  {
    HoldersSame(s.workers, s.workers[w := phase], s.requests, true);
    HoldersSame(s.workers, s.workers[w := phase], s.requests, false);
  }

  /** What neither takes nor releases a request. */
  predicate Aside(e: Event) {
    e.CancelFuture? || e.ObserveCancel? || e.Pause? || e.Resume? || e.Drain? || e.Close? || e.Tick?
  }

  lemma OthersCounted(c: Config, s: State, e: Event)
    requires Counted(s) && Aside(e) && Enabled(c, s, e)
    ensures Counted(Step(c, s, e))
  {
    var t := Step(c, s, e);
    HoldersSame(s.workers, t.workers, s.requests, true);
    HoldersSame(s.workers, t.workers, s.requests, false);
  }

  /** The counters move with the holders; in particular the clamp at zero never takes effect. */
  lemma CountedStep(c: Config, s: State, e: Event)
    requires Safe(s) && Counted(s) && Enabled(c, s, e)
    ensures Counted(Step(c, s, e))
  {
    match e
    case Submit(p, deadline, woken) => SubmitCounted(c, s, p, deadline, woken);
    case Pass(w, pick) => PassCounted(c, s, w, pick);
    case Finish(w) => LeaveCounted(s, w, s.workers[w].id, 1);
    case CancelAcquire(w) => LeaveCounted(s, w, s.workers[w].id, 0);
    case Acquired(w) => MoveCounted(s, w, Running(s.workers[w].id));
    case EndRun(w, ok) => MoveCounted(s, w, Ending(s.workers[w].id));
    case CancelRun(w) => MoveCounted(s, w, Aborting(s.workers[w].id));
    case _ => OthersCounted(c, s, e);
  }

  // ----- Capacity and lifecycle -----

  lemma DiscardBounded(c: Config, s: State)
    requires Bounded(c, s)
    ensures Bounded(c, Discard(s))
  {
    SubsetSize(Live(s), s.queued);
  }

  lemma EnqueueBounded(c: Config, s: State, p: Priority, deadline: int, woken: Option<Worker>)
    requires |s.queued| < c.maxSize && !s.lifecycle.Closed?
    ensures Bounded(c, Enqueue(s, p, deadline, woken))
  {
    assert |s.queued + {s.issued}| <= |s.queued| + 1;
  }

  lemma SubmitBounded(c: Config, s: State, p: Priority, deadline: int, woken: Option<Worker>)
    requires Bounded(c, s)
    ensures Bounded(c, SubmitStep(c, s, p, deadline, woken))
  {
    DiscardBounded(c, s);
    if VerdictOf(c, s, p).Accepted? {
      EnqueueBounded(c, Discard(s), p, deadline, woken);
    }
  }

  lemma PassBounded(c: Config, s: State, w: Worker, pick: Option<nat>)
    requires Bounded(c, s)
    ensures Bounded(c, PassStep(s, w, pick))
  {
    var t := PassStep(s, w, pick);
    assert t.queued <= s.queued;
    SubsetSize(t.queued, s.queued);
  }

  lemma BoundedStep(c: Config, s: State, e: Event)
    requires Bounded(c, s) && Enabled(c, s, e)
    ensures Bounded(c, Step(c, s, e))
  {
    match e
    case Submit(p, deadline, woken) => SubmitBounded(c, s, p, deadline, woken);
    case Pass(w, pick) => PassBounded(c, s, w, pick);
    case _ =>
  }

  // ----- Wakeups -----

  lemma DiscardAwake(s: State)
    requires Awake(s)
    ensures Awake(Discard(s))
  {
    SubsetSize(Live(s), s.queued);
  }

  lemma EnqueueAwake(s: State, p: Priority, deadline: int, woken: Option<Worker>)
    requires Awake(s)
    requires if woken.Some? then woken.value in ParkedIn(s.workers) else ParkedIn(s.workers) == {}
    ensures Awake(Enqueue(s, p, deadline, woken))
  {
    var t := Enqueue(s, p, deadline, woken);
    match woken
    case Some(w) =>
      assert NotifiedIn(t.workers) == NotifiedIn(s.workers) + {w};
    case None =>
      assert t.workers == s.workers;
  }

  lemma SubmitAwake(c: Config, s: State, p: Priority, deadline: int, woken: Option<Worker>)
    requires Awake(s) && WokenOk(c, s, p, woken)
    ensures Awake(SubmitStep(c, s, p, deadline, woken))
  {
    DiscardAwake(s);
    if VerdictOf(c, s, p).Accepted? {
      EnqueueAwake(Discard(s), p, deadline, woken);
    }
  }

  lemma ParkAwake(s: State, w: Worker)
    requires w in s.workers && (s.queued == {} || s.lifecycle.Paused?)
    ensures Awake(s.(workers := s.workers[w := Parked]))
  {
  }

  lemma LeaveAwake(s: State, t: State, w: Worker, phase: Phase)
    requires Awake(s) && w in s.workers && !s.workers[w].Parked? && t.lifecycle == s.lifecycle
    requires t.workers == s.workers[w := phase] && !phase.Parked? && !phase.Notified?
    requires s.queued == t.queued == {} || exists id :: id in s.queued && t.queued == s.queued - {id}
    ensures Awake(t)
  {
    assert ParkedIn(t.workers) == ParkedIn(s.workers);
    assert NotifiedIn(t.workers) == NotifiedIn(s.workers) - {w};
  }

  lemma PassAwake(c: Config, s: State, w: Worker, pick: Option<nat>)
    requires Awake(s) && Enabled(c, s, Pass(w, pick))
    ensures Awake(PassStep(s, w, pick))
  {
    DiscardAwake(s);
    if Stops(s) {
      LeaveAwake(s, PassStep(s, w, pick), w, Gone);
    } else if pick.None? {
      ParkAwake(Discard(s), w);
    } else {
      LeaveAwake(Discard(s), PassStep(s, w, pick), w, Acquiring(pick.value));
    }
  }

  lemma AwakeStep(c: Config, s: State, e: Event)
    requires Awake(s) && Enabled(c, s, e)
    ensures Awake(Step(c, s, e))
  {
    match e
    case Submit(p, deadline, woken) => SubmitAwake(c, s, p, deadline, woken);
    case Pass(w, pick) => PassAwake(c, s, w, pick);
    case Pause =>
    case Resume =>
    case Drain =>
    case Close =>
    case _ =>
      var t := Step(c, s, e);
      assert ParkedIn(t.workers) == ParkedIn(s.workers) && NotifiedIn(t.workers) == NotifiedIn(s.workers);
  }

  // ----- Whole runs -----

  lemma InvStep(c: Config, s: State, e: Event)
    requires Inv(c, s) && Enabled(c, s, e)
    ensures Inv(c, Step(c, s, e))
  {
    SafeStep(c, s, e);
    CountedStep(c, s, e);
    BoundedStep(c, s, e);
    AwakeStep(c, s, e);
  }

  lemma {:induction false} InvRun(c: Config, s: State, es: seq<Event>)
    requires Inv(c, s) && IsRun(c, s, es)
    ensures Inv(c, After(c, s, es))
    decreases |es|
  {
    if es != [] {
      InvStep(c, s, es[0]);
      InvRun(c, Step(c, s, es[0]), es[1..]);
    }
  }

  lemma InvInitial(c: Config, s: State)
    requires Initial(s)
    ensures Inv(c, s)
  {
    assert HoldersIn(s.workers, s.requests, true) == {} && HoldersIn(s.workers, s.requests, false) == {};
    assert ParkedIn(s.workers) == {};
  }

  /** Every reachable state satisfies all the invariants. */
  lemma ReachableInv(c: Config, s: State)
    requires Reachable(c, s)
    ensures Inv(c, s)
  {
    var s0, es :| Initial(s0) && IsRun(c, s0, es) && After(c, s0, es) == s;
    InvInitial(c, s0);
    InvRun(c, s0, es);
  }
}
