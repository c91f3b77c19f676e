/** The per-endpoint circuit breaker: a timed automaton that moves out of OPEN only when looked at. */
module CircuitBreaker {
  import opened Common

  datatype Mode = Closed | Open | HalfOpen

  datatype Params = Params(threshold: int, cooldown: real, target: int)

  predicate ValidParams(p: Params) {
    p.threshold >= 1 && p.cooldown > 0.0 && p.target >= 1
  }

  datatype Breaker = Breaker(mode: Mode, failures: int, successes: int, openedAt: Option<real>)

  const FRESH := Breaker(Closed, 0, 0, None)

  datatype Op = Succeed | Fail | Look

  datatype Event = Event(op: Op, at: real)

  /** OPEN becomes HALF_OPEN when the breaker is consulted after the cooldown. */
  function Advance(p: Params, b: Breaker, now: real): Breaker {
    if b.mode.Open? && b.openedAt.Some? && now - b.openedAt.value >= p.cooldown then
      b.(mode := HalfOpen, successes := 0)
    else b
  }

  function Recorded(p: Params, b: Breaker, op: Op, now: real): Breaker {
    match op
    case Look => b
    case Succeed =>
      if b.mode.HalfOpen? && b.successes + 1 < p.target then b.(successes := b.successes + 1)
      else FRESH
    case Fail =>
      if b.mode.HalfOpen? || b.failures + 1 >= p.threshold then Breaker(Open, b.failures + 1, 0, Some(now))
      else b.(failures := b.failures + 1)
  }

  /** Every operation ends with a snapshot, which consults the breaker at the same instant. */
  function Apply(p: Params, b: Breaker, e: Event): Breaker {
    Advance(p, Recorded(p, b, e.op, e.at), e.at)
  }

  function After(p: Params, es: seq<Event>): Breaker {
    if es == [] then FRESH else Apply(p, After(p, es[..|es| - 1]), es[|es| - 1])
  }

  /** The state reported at time t. */
  function StateAt(p: Params, es: seq<Event>, t: real): Breaker {
    Advance(p, After(p, es), t)
  }

  predicate Allows(b: Breaker) {
    !b.mode.Open?
  }

  /** Events in time order, all up to t. */
  ghost predicate Timed(es: seq<Event>, t: real) {
    && (forall i, j :: 0 <= i < j < |es| ==> es[i].at <= es[j].at)
    && (forall i :: 0 <= i < |es| ==> es[i].at <= t)
  }

  class EndpointCircuitBreaker {
    const params: Params
    var mode: Mode
    var consecutiveFailures: int
    var halfOpenSuccessCount: int
    var openedAt: Option<real>

    function View(): Breaker
      reads this
    {
      Breaker(mode, consecutiveFailures, halfOpenSuccessCount, openedAt)
    }

    constructor (params: Params)
      requires ValidParams(params)
      ensures View() == FRESH && this.params == params
    {
      this.params := params;
      mode, consecutiveFailures, halfOpenSuccessCount, openedAt := Closed, 0, 0, None;
    }

    method MaybeAdvanceFromOpen(now: real)
      modifies this
      ensures View() == Advance(params, old(View()), now)
    {
      if mode != Open || openedAt.None? {
        return;
      }
      if now - openedAt.value >= params.cooldown {
        mode := HalfOpen;
        halfOpenSuccessCount := 0;
      }
    }

    method AllowsTraffic(now: real) returns (allowed: bool)
      modifies this
      ensures View() == Apply(params, old(View()), Event(Look, now)) && allowed == Allows(View())
    {
      MaybeAdvanceFromOpen(now);
      allowed := mode != Open;
    }

    method RecordSuccess(now: real) returns (snapshot: Breaker)
      modifies this
      ensures View() == Apply(params, old(View()), Event(Succeed, now)) && snapshot == View()
    {
      if mode == HalfOpen {
        halfOpenSuccessCount := halfOpenSuccessCount + 1;
        if halfOpenSuccessCount >= params.target {
          ResetToClosed();
        }
      } else {
        consecutiveFailures := 0;
        mode := Closed;
        openedAt := None;
        halfOpenSuccessCount := 0;
      }
      MaybeAdvanceFromOpen(now);
      snapshot := View();
    }

    method RecordFailure(now: real) returns (snapshot: Breaker)
      modifies this
      ensures View() == Apply(params, old(View()), Event(Fail, now)) && snapshot == View()
    {
      consecutiveFailures := consecutiveFailures + 1;
      if mode == HalfOpen {
        TripOpen(now);
      } else if consecutiveFailures >= params.threshold {
        TripOpen(now);
      }
      MaybeAdvanceFromOpen(now);
      snapshot := View();
    }

    method TripOpen(now: real)
      modifies this
      ensures View() == Breaker(Open, old(consecutiveFailures), 0, Some(now))
    {
      mode := Open;
      openedAt := Some(now);
      halfOpenSuccessCount := 0;
    }

    method ResetToClosed()
      modifies this
      ensures View() == FRESH
    {
      mode := Closed;
      consecutiveFailures := 0;
      openedAt := None;
      halfOpenSuccessCount := 0;
    }
  }

  /** The constructor's argument check. */
  method CreateBreaker(params: Params) returns (b: EndpointCircuitBreaker?)
    ensures b == null <==> !ValidParams(params)
    ensures b != null ==> b.params == params && b.View() == FRESH
  {
    if params.threshold < 1 || params.cooldown <= 0.0 || params.target < 1 {
      b := null;
    } else {
      b := new EndpointCircuitBreaker(params);
    }
  }
}
