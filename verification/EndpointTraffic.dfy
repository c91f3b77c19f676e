/**
 Many buffered requests at the endpoint governor. Each request performs the actions of its own log,
 one between two awaits, waiting where the governor makes it wait; a release is carried out without
 asking who holds what, as in the source.
 */
module EndpointTraffic {
  import opened Common
  import opened Failover
  import M = SlotMonitor

  /** A request of a class, everything it will do, and how far it has come. */
  datatype Request = Request(foreground: bool, log: seq<Action>, done: nat)

  datatype State = State(slots: M.State, requests: map<M.Task, Request>)

  datatype Event =
    | Arrive(task: M.Task, foreground: bool, log: seq<Action>)
    | Act(task: M.Task)
    | GiveUp(task: M.Task)
    | Update(limits: M.Limits)

  function HeldNow(r: Request): Option<string> {
    if r.done <= |r.log| then HeldAfter(r.log[..r.done]) else None
  }

  predicate AtAcquire(r: Request) {
    r.done < |r.log| && r.log[r.done].Acquired?
  }

  /** Parked in the governor: nothing but a notification moves it. */
  predicate Waits(s: State, t: M.Task) {
    t in s.slots.tasks && s.slots.tasks[t].stage.Parked?
  }

  predicate CanMove(s: State, t: M.Task) {
    t in s.requests && s.requests[t].done < |s.requests[t].log| && !Waits(s, t)
  }

  ghost predicate Enabled(c: M.Config, s: State, e: Event) {
    match e
    case Arrive(t, _, log) => t !in s.requests && Bracketed(log)
    case Act(t) => CanMove(s, t)
    case GiveUp(t) => t in s.requests && t in s.slots.tasks && AtAcquire(s.requests[t])
    case Update(l) => M.Enabled(c, s.slots, M.Update(l))
  }

  function Advance(s: State, t: M.Task): map<M.Task, Request>
    requires t in s.requests
  {
    s.requests[t := s.requests[t].(done := s.requests[t].done + 1)]
  }

  function ActStep(c: M.Config, s: State, t: M.Task): State
    requires CanMove(s, t)
  {
    var r := s.requests[t];
    match r.log[r.done]
    case Acquired(n) =>
      var claim := M.Claim(n, r.foreground);
      State(M.Attempt(c, s.slots, t, claim), if M.CanAcquire(c, s.slots, claim) then Advance(s, t) else s.requests)
    case Released(n) => State(M.Freed(s.slots, t, M.Claim(n, r.foreground)), Advance(s, t))
    case _ => s.(requests := Advance(s, t))
  }

  /** A request cancelled while it waits for a slot does nothing more. */
  function GiveUpStep(s: State, t: M.Task): State
    requires t in s.requests && s.requests[t].done <= |s.requests[t].log|
  {
    var r := s.requests[t];
    State(s.slots.(tasks := s.slots.tasks - {t}), s.requests[t := r.(log := r.log[..r.done])])
  }

  function Step(c: M.Config, s: State, e: Event): State
    requires Enabled(c, s, e)
  {
    match e
    case Arrive(t, foreground, log) => s.(requests := s.requests[t := Request(foreground, log, 0)])
    case Act(t) => ActStep(c, s, t)
    case GiveUp(t) => GiveUpStep(s, t)
    case Update(l) => s.(slots := M.Step(c, s.slots, M.Update(l)))
  }

  ghost predicate IsRun(c: M.Config, s: State, es: seq<Event>)
    decreases |es|
  {
    es == [] || (Enabled(c, s, es[0]) && IsRun(c, Step(c, s, es[0]), es[1..]))
  }

  ghost function After(c: M.Config, s: State, es: seq<Event>): State
    requires IsRun(c, s, es)
    decreases |es|
  {
    if es == [] then s else After(c, Step(c, s, es[0]), es[1..])
  }

  ghost predicate Initial(c: M.Config, s: State) {
    M.Initial(c, s.slots) && s.requests == map[]
  }

  // ----- Logs and slots agree -----

  /** The governor's entry for a request says what its log says. */
  predicate LinkedAt(r: Request, entry: Option<M.Entry>) {
    && r.done <= |r.log| && Bracketed(r.log)
    && match HeldNow(r)
       case Some(n) => entry == Some(M.Entry(M.Claim(n, r.foreground), M.Holding))
       case None => entry.Some? ==>
         && !entry.value.stage.Holding? && AtAcquire(r)
         && entry.value.claim == M.Claim(r.log[r.done].name, r.foreground)
  }

  function EntryOf(s: M.State, t: M.Task): Option<M.Entry> {
    if t in s.tasks then Some(s.tasks[t]) else None
  }

  ghost predicate Linked(s: State) {
    && s.slots.tasks.Keys <= s.requests.Keys
    && forall t :: t in s.requests ==> LinkedAt(s.requests[t], EntryOf(s.slots, t))
  }

  ghost predicate Inv(c: M.Config, s: State) {
    M.Inv(c, s.slots) && Linked(s)
  }

  /** One more action of a bracketed log fits what the request holds and changes that accordingly. */
  lemma NextHeld(r: Request)
    requires r.done < |r.log| && Bracketed(r.log)
    ensures FitsHeld(HeldNow(r), r.log[r.done])
    ensures var h := HeldNow(r.(done := r.done + 1));
      match r.log[r.done]
      case Acquired(n) => h == Some(n)
      case Released(_) => h == None
      case _ => h == HeldNow(r)
  {
    FitsAt(r.log, r.done);
    assert r.log[..r.done + 1] == r.log[..r.done] + [r.log[r.done]];
    HeldSnoc(r.log[..r.done], r.log[r.done]);
  }

  lemma AllDone(r: Request)
    requires r.done == |r.log| && Bracketed(r.log)
    ensures HeldNow(r) == None
  {
    assert r.log[..r.done] == r.log;
  }

  /** Cut off where it holds nothing, a log is still bracketed. */
  lemma CutBracketed(r: Request)
    requires r.done <= |r.log| && Bracketed(r.log) && HeldNow(r) == None
    ensures Bracketed(r.log[..r.done]) && HeldNow(r.(log := r.log[..r.done])) == None
  {
    var cut := r.log[..r.done];
    assert cut[..r.done] == cut;
    FitsAt(r.log, r.done);
  }

  /** A link survives being notified. */
  lemma LinkNotified(r: Request, before: Option<M.Entry>, after: Option<M.Entry>)
    requires LinkedAt(r, before)
    requires before.Some? <==> after.Some?
    requires before.Some? ==>
      && after.value.claim == before.value.claim
      && (after.value.stage.Holding? <==> before.value.stage.Holding?)
    ensures LinkedAt(r, after)
  {
  }

  /** Whoever releases holds exactly that slot, so the unconditional release is a release by a holder. */
  lemma ReleaseIsByHolder(c: M.Config, s: State, t: M.Task)
    requires Linked(s) && CanMove(s, t) && s.requests[t].log[s.requests[t].done].Released?
    ensures M.Enabled(c, s.slots, M.Release(t))
    ensures var r := s.requests[t];
      M.Freed(s.slots, t, M.Claim(r.log[r.done].name, r.foreground)) == M.Step(c, s.slots, M.Release(t))
  {
    NextHeld(s.requests[t]);
    assert LinkedAt(s.requests[t], EntryOf(s.slots, t));
  }

  /** Whoever asks for a slot holds none and asks for the first time or after a notification. */
  lemma AttemptIsAStep(c: M.Config, s: State, t: M.Task) returns (e: M.Event)
    requires Linked(s) && CanMove(s, t) && AtAcquire(s.requests[t])
    ensures M.Enabled(c, s.slots, e)
    ensures var r := s.requests[t];
      M.Attempt(c, s.slots, t, M.Claim(r.log[r.done].name, r.foreground)) == M.Step(c, s.slots, e)
  {
    var r := s.requests[t];
    NextHeld(r);
    assert LinkedAt(r, EntryOf(s.slots, t));
    e := M.TurnEvent(s.slots, t, M.Claim(r.log[r.done].name, r.foreground));
  }

  lemma ActSlots(c: M.Config, s: State, t: M.Task)
    requires Inv(c, s) && CanMove(s, t)
    ensures M.Inv(c, ActStep(c, s, t).slots)
  {
    match s.requests[t].log[s.requests[t].done]
    case Acquired(_) =>
      var e := AttemptIsAStep(c, s, t);
      M.InvStep(c, s.slots, e);
    case Released(_) =>
      ReleaseIsByHolder(c, s, t);
      M.InvStep(c, s.slots, M.Release(t));
    case _ =>
  }

  lemma AcquireLinked(c: M.Config, s: State, t: M.Task)
    requires Linked(s) && CanMove(s, t) && AtAcquire(s.requests[t])
    ensures Linked(ActStep(c, s, t))
  {
    var u := ActStep(c, s, t);
    NextHeld(s.requests[t]);
    assert LinkedAt(s.requests[t], EntryOf(s.slots, t));
    forall x | x in u.requests ensures LinkedAt(u.requests[x], EntryOf(u.slots, x)) {
      assert LinkedAt(s.requests[x], EntryOf(s.slots, x));
    }
  }

  lemma ReleaseLinked(c: M.Config, s: State, t: M.Task)
    requires Linked(s) && CanMove(s, t) && s.requests[t].log[s.requests[t].done].Released?
    ensures Linked(ActStep(c, s, t))
  {
    var u := ActStep(c, s, t);
    NextHeld(s.requests[t]);
    forall x | x in u.requests ensures LinkedAt(u.requests[x], EntryOf(u.slots, x)) {
      if x != t {
        LinkNotified(s.requests[x], EntryOf(s.slots, x), EntryOf(u.slots, x));
      }
    }
  }

  lemma OtherLinked(c: M.Config, s: State, t: M.Task)
    requires Linked(s) && CanMove(s, t)
    requires !s.requests[t].log[s.requests[t].done].Acquired? && !s.requests[t].log[s.requests[t].done].Released?
    ensures Linked(ActStep(c, s, t))
  {
    var u := ActStep(c, s, t);
    NextHeld(s.requests[t]);
    assert LinkedAt(s.requests[t], EntryOf(s.slots, t));
    forall x | x in u.requests ensures LinkedAt(u.requests[x], EntryOf(u.slots, x)) {
      assert x != t ==> LinkedAt(s.requests[x], EntryOf(s.slots, x));
    }
  }

  lemma ActInv(c: M.Config, s: State, t: M.Task)
    requires Inv(c, s) && CanMove(s, t)
    ensures Inv(c, ActStep(c, s, t))
  {
    ActSlots(c, s, t);
    match s.requests[t].log[s.requests[t].done]
    case Acquired(_) => AcquireLinked(c, s, t);
    case Released(_) => ReleaseLinked(c, s, t);
    case _ => OtherLinked(c, s, t);
  }

  lemma GiveUpInv(c: M.Config, s: State, t: M.Task)
    requires Inv(c, s) && Enabled(c, s, GiveUp(t))
    ensures Inv(c, GiveUpStep(s, t))
  {
    var u := GiveUpStep(s, t);
    NextHeld(s.requests[t]);
    assert LinkedAt(s.requests[t], EntryOf(s.slots, t));
    CutBracketed(s.requests[t]);
    M.InvStep(c, s.slots, M.CancelWait(t));
    forall x | x in u.requests ensures LinkedAt(u.requests[x], EntryOf(u.slots, x)) {
      assert x != t ==> LinkedAt(s.requests[x], EntryOf(s.slots, x));
    }
  }

  lemma UpdateInv(c: M.Config, s: State, l: M.Limits)
    requires Inv(c, s) && Enabled(c, s, Update(l))
    ensures Inv(c, Step(c, s, Update(l)))
  {
    var u := Step(c, s, Update(l));
    M.InvStep(c, s.slots, M.Update(l));
    forall x | x in u.requests ensures LinkedAt(u.requests[x], EntryOf(u.slots, x)) {
      LinkNotified(s.requests[x], EntryOf(s.slots, x), EntryOf(u.slots, x));
    }
  }

  lemma ArriveInv(c: M.Config, s: State, t: M.Task, foreground: bool, log: seq<Action>)
    requires Inv(c, s) && Enabled(c, s, Arrive(t, foreground, log))
    ensures Inv(c, Step(c, s, Arrive(t, foreground, log)))
  {
    var u := Step(c, s, Arrive(t, foreground, log));
    forall x | x in u.requests ensures LinkedAt(u.requests[x], EntryOf(u.slots, x)) {
      assert x != t ==> LinkedAt(s.requests[x], EntryOf(s.slots, x));
    }
  }

  lemma InvStep(c: M.Config, s: State, e: Event)
    requires Inv(c, s) && Enabled(c, s, e)
    ensures Inv(c, Step(c, s, e))
  {
    match e
    case Arrive(t, foreground, log) => ArriveInv(c, s, t, foreground, log);
    case Act(t) => ActInv(c, s, t);
    case GiveUp(t) => GiveUpInv(c, s, t);
    case Update(l) => UpdateInv(c, s, l);
  }

  lemma {:induction false} TrafficInv(c: M.Config, s: State, es: seq<Event>)
    requires Inv(c, s) && IsRun(c, s, es)
    ensures Inv(c, After(c, s, es))
    decreases |es|
  {
    if es != [] {
      InvStep(c, s, es[0]);
      TrafficInv(c, Step(c, s, es[0]), es[1..]);
    }
  }

  lemma ReachedInv(c: M.Config, s0: State, es: seq<Event>)
    requires Initial(c, s0) && IsRun(c, s0, es)
    ensures Inv(c, After(c, s0, es))
  {
    M.InvInitial(c, s0.slots);
    TrafficInv(c, s0, es);
  }

  /** A request that can move does: it performs its next action, or it parks because the governor has no
      slot for it. No other request is moved. */
  lemma MovesOrParks(c: M.Config, s: State, t: M.Task)
    requires CanMove(s, t)
    ensures var u := Step(c, s, Act(t)); var r := s.requests[t];
      && u.requests.Keys == s.requests.Keys
      && (forall x :: x in s.requests && x != t ==> u.requests[x] == s.requests[x])
      && (u.requests[t] == r.(done := r.done + 1)
          || (u.requests[t] == r && r.log[r.done].Acquired? && Waits(u, t)
              && !M.CanAcquire(c, s.slots, M.Claim(r.log[r.done].name, r.foreground))))
  {
  }

  // ----- What holds at every endpoint -----

  /** The requests of a class that are between their acquire and their release at an endpoint. */
  function InFlight(s: State, claim: M.Claim): set<M.Task> {
    set t | t in s.requests && HeldNow(s.requests[t]) == Some(claim.pool)
            && s.requests[t].foreground == claim.foreground
  }

  lemma HoldersAreInFlight(s: State, claim: M.Claim)
    requires Linked(s)
    ensures M.Holders(s.slots, claim) == InFlight(s, claim)
  {
    forall t ensures t in M.Holders(s.slots, claim) <==> t in InFlight(s, claim) {
      if t in s.requests {
        assert LinkedAt(s.requests[t], EntryOf(s.slots, t));
      }
    }
  }

  /** Exact endpoint accounting for buffered requests, over every interleaving: each count is the number
      of requests between their acquire and their release there, within the configured maximum. */
  lemma EndpointCountsAreInFlight(c: M.Config, s0: State, es: seq<Event>, claim: M.Claim)
    requires Initial(c, s0) && IsRun(c, s0, es)
    ensures var s := After(c, s0, es);
      && M.Running(s.slots, claim) == |InFlight(s, claim)|
      && |InFlight(s, claim)| <= (if claim.foreground then c.maxForeground else c.maxBackground)
  {
    ReachedInv(c, s0, es);
    var s := After(c, s0, es);
    HoldersAreInFlight(s, claim);
    assert M.Running(s.slots, claim) == |M.Holders(s.slots, claim)|;
    assert M.Running(s.slots, claim) <= (if claim.foreground then c.maxForeground else c.maxBackground);
  }

  /** When every request has done all it will do, every counter is back at zero. */
  lemma QuietEndpointsAreEmpty(c: M.Config, s0: State, es: seq<Event>, claim: M.Claim)
    requires Initial(c, s0) && IsRun(c, s0, es)
    requires var s := After(c, s0, es);
      forall t :: t in s.requests ==> s.requests[t].done == |s.requests[t].log|
    ensures M.Running(After(c, s0, es).slots, claim) == 0
  {
    EndpointCountsAreInFlight(c, s0, es, claim);
    ReachedInv(c, s0, es);
    var s := After(c, s0, es);
    forall t ensures t !in InFlight(s, claim) {
      if t in s.requests {
        assert LinkedAt(s.requests[t], EntryOf(s.slots, t));
        AllDone(s.requests[t]);
      }
    }
    assert InFlight(s, claim) == {};
  }

  /** No deadlock at the endpoints: a request that waits, unless it is background work under a zero
      limit, waits for a request of its own class at its own endpoint that holds a slot there and can
      move on, since no request waits for a slot while it holds one. */
  lemma WaitersAreServed(c: M.Config, s0: State, es: seq<Event>, t: M.Task)
    requires Initial(c, s0) && IsRun(c, s0, es) && c.capacity == None && Waits(After(c, s0, es), t)
    requires var s := After(c, s0, es); s.slots.tasks[t].claim.foreground || s.slots.limits.background > 0
    ensures var s := After(c, s0, es);
      exists h :: h != t && h in InFlight(s, s.slots.tasks[t].claim) && CanMove(s, h)
  {
    ReachedInv(c, s0, es);
    var s := After(c, s0, es);
    if s.slots.tasks[t].claim.foreground {
      M.ParkedForeground(c, s.slots, t);
    } else {
      M.ParkedBackground(c, s.slots, t);
    }
    var h :| M.Blocks(s.slots, h, t);
    var claim := s.slots.tasks[t].claim;
    HoldersAreInFlight(s, claim);
    assert h in M.Holders(s.slots, claim);
    assert LinkedAt(s.requests[h], EntryOf(s.slots, h));
    if s.requests[h].done == |s.requests[h].log| {
      AllDone(s.requests[h]);
    }
  }
}
