/** The breaker against its history and against an automaton that moves at the cooldown instant. */
module BreakerTheorems {
  import opened Common
  import opened CircuitBreaker

  // ----- History -----

  /** Failures recorded since the last success, or since the start. */
  function FailuresSince(es: seq<Event>): nat {
    if es == [] then 0
    else
      match es[|es| - 1].op
      case Succeed => 0
      case Fail => FailuresSince(es[..|es| - 1]) + 1
      case Look => FailuresSince(es[..|es| - 1])
  }

  /** The instant of the latest failure. */
  function LastFailure(es: seq<Event>): real {
    if es == [] then 0.0
    else if es[|es| - 1].op.Fail? then es[|es| - 1].at
    else LastFailure(es[..|es| - 1])
  }

  /** What the breaker's fields say about the history, for every target. */
  ghost predicate Explained(p: Params, b: Breaker, es: seq<Event>) {
    && (b.mode.Closed? ==> b.failures == FailuresSince(es) < p.threshold)
    && (!b.mode.Closed? ==> b.failures >= p.threshold && b.failures >= FailuresSince(es))
    && 0 <= b.successes < p.target && (b.successes != 0 ==> b.mode.HalfOpen?)
    && (b.openedAt.None? <==> b.mode.Closed?)
    && (b.mode.Open? ==> FailuresSince(es) > 0)
    && (!b.mode.Closed? ==> b.openedAt == Some(LastFailure(es)))
    && (!b.mode.Closed? && FailuresSince(es) > 0 ==> b.successes == 0)
  }

  lemma {:induction false} HistoryInvariant(p: Params, es: seq<Event>)
    requires ValidParams(p)
    ensures Explained(p, After(p, es), es)
    decreases |es|
  {
    if es != [] {
      HistoryInvariant(p, es[..|es| - 1]);
    }
  }

  /** HALF_OPEN is reached no earlier than a cooldown after the latest failure. */
  lemma {:induction false} HalfOpenIsDue(p: Params, es: seq<Event>, t: real)
    requires ValidParams(p) && Timed(es, t) && After(p, es).mode.HalfOpen?
    ensures t - LastFailure(es) >= p.cooldown
    decreases |es|
  {
    if es != [] {
      var n := |es| - 1;
      var before := es[..n];
      HistoryInvariant(p, before);
      HistoryInvariant(p, es);
      assert Timed(before, es[n].at);
      if !es[n].op.Fail? && After(p, before).mode.HalfOpen? {
        HalfOpenIsDue(p, before, es[n].at);
      }
    }
  }

  /** Once tripped and until closed again, whatever partial successes came in between, traffic is
      refused until exactly the cooldown since the latest failure has elapsed. */
  lemma RefusedUntilCooldown(p: Params, es: seq<Event>, t: real)
    requires ValidParams(p) && Timed(es, t) && !After(p, es).mode.Closed?
    ensures Allows(StateAt(p, es, t)) <==> t - LastFailure(es) >= p.cooldown
  {
    HistoryInvariant(p, es);
    if After(p, es).mode.HalfOpen? {
      HalfOpenIsDue(p, es, t);
    }
  }

  /** As many failures as the threshold since the last success always leave the breaker tripped. */
  lemma ThresholdTrips(p: Params, es: seq<Event>)
    requires ValidParams(p) && FailuresSince(es) >= p.threshold
    ensures !After(p, es).mode.Closed?
  {
    HistoryInvariant(p, es);
  }

  /** A run of successes at given instants. */
  function Successes(p: Params, b: Breaker, at: seq<real>): Breaker {
    if at == [] then b else Apply(p, Successes(p, b, at[..|at| - 1]), Event(Succeed, at[|at| - 1]))
  }

  /** A half-open breaker closes with exactly the target-th success in a row, its failures forgotten;
      until then it stays half-open. */
  lemma {:induction false} ClosesAtTarget(p: Params, b: Breaker, at: seq<real>)
    requires ValidParams(p) && b.mode == HalfOpen && 0 <= b.successes < p.target
    ensures var c := Successes(p, b, at);
      if b.successes + |at| < p.target then c == b.(successes := b.successes + |at|) else c == FRESH
    decreases |at|
  {
    if at != [] {
      ClosesAtTarget(p, b, at[..|at| - 1]);
    }
  }

  /** One failure while half-open trips the breaker again, from that instant. */
  lemma HalfOpenFailureTrips(p: Params, b: Breaker, now: real)
    requires ValidParams(p) && b.mode == HalfOpen
    ensures Apply(p, b, Event(Fail, now)) == Breaker(Open, b.failures + 1, 0, Some(now))
  {
  }

  // ----- One success closes: the answer is a function of the history -----

  /** The whole state, read off the history. */
  function FromHistory(p: Params, es: seq<Event>, t: real): Breaker {
    var n := FailuresSince(es);
    if n < p.threshold then Breaker(Closed, n, 0, None)
    else Breaker(if t - LastFailure(es) >= p.cooldown then HalfOpen else Open, n, 0, Some(LastFailure(es)))
  }

  lemma {:induction false} StateIsHistory(p: Params, es: seq<Event>, t: real)
    requires ValidParams(p) && p.target == 1 && Timed(es, t)
    ensures StateAt(p, es, t) == FromHistory(p, es, t)
    decreases |es|
  {
    if es != [] {
      var n := |es| - 1;
      assert Timed(es[..n], es[n].at);
      StateIsHistory(p, es[..n], es[n].at);
      HistoryInvariant(p, es[..n]);
    }
  }

  function Strip(es: seq<Event>): seq<Event> {
    if es == [] then []
    else Strip(es[..|es| - 1]) + (if es[|es| - 1].op.Look? then [] else [es[|es| - 1]])
  }

  lemma HistorySnoc(es: seq<Event>, e: Event)
    ensures FailuresSince(es + [e])
         == if e.op.Succeed? then 0 else if e.op.Fail? then FailuresSince(es) + 1 else FailuresSince(es)
    ensures LastFailure(es + [e]) == if e.op.Fail? then e.at else LastFailure(es)
  {
    assert (es + [e])[..|es|] == es;
  }

  lemma {:induction false} StripKeepsHistory(es: seq<Event>)
    ensures FailuresSince(Strip(es)) == FailuresSince(es) && LastFailure(Strip(es)) == LastFailure(es)
    decreases |es|
  {
    if es != [] {
      var front, last := es[..|es| - 1], es[|es| - 1];
      StripKeepsHistory(front);
      HistorySnoc(front, last);
      HistorySnoc(Strip(front), last);
      assert es == front + [last];
      assert last.op.Look? ==> Strip(front) + [] == Strip(front);
    }
  }

  /** With a target of one, inserting or removing observations never changes a later answer. */
  lemma ObservationsAreInvisible(p: Params, es: seq<Event>, es': seq<Event>, t: real)
    requires ValidParams(p) && p.target == 1 && Timed(es, t) && Timed(es', t)
    requires Strip(es) == Strip(es')
    ensures StateAt(p, es, t) == StateAt(p, es', t)
  {
    StripKeepsHistory(es);
    StripKeepsHistory(es');
    StateIsHistory(p, es, t);
    StateIsHistory(p, es', t);
  }

  lemma StripSnoc(es: seq<Event>, e: Event)
    ensures Strip(es + [e]) == Strip(es) + (if e.op.Look? then [] else [e])
  {
    assert (es + [e])[..|es|] == es;
  }

  // ----- The eager automaton -----

  datatype Eager =
    | Flowing(failures: int)
    | Tripped(failures: int, since: real)
    | Probing(failures: int, successes: int)

  function Elapse(p: Params, a: Eager, now: real): Eager {
    if a.Tripped? && now - a.since >= p.cooldown then Probing(a.failures, 0) else a
  }

  function React(p: Params, a: Eager, op: Op, now: real): Eager {
    match op
    case Look => a
    case Succeed =>
      if a.Probing? && a.successes + 1 < p.target then Probing(a.failures, a.successes + 1) else Flowing(0)
    case Fail =>
      if a.Flowing? && a.failures + 1 < p.threshold then Flowing(a.failures + 1)
      else Tripped(a.failures + 1, now)
  }

  /** Time passes first, then the operation acts on the state the breaker is really in. */
  function EagerAfter(p: Params, es: seq<Event>): Eager {
    if es == [] then Flowing(0)
    else
      var e := es[|es| - 1];
      React(p, Elapse(p, EagerAfter(p, es[..|es| - 1]), e.at), e.op, e.at)
  }

  function EagerAt(p: Params, es: seq<Event>, t: real): Eager {
    Elapse(p, EagerAfter(p, es), t)
  }

  function ToEager(b: Breaker): Eager {
    match b.mode
    case Closed => Flowing(b.failures)
    case Open => Tripped(b.failures, if b.openedAt.Some? then b.openedAt.value else 0.0)
    case HalfOpen => Probing(b.failures, b.successes)
  }

  ghost predicate Agrees(p: Params) {
    forall es, t :: Timed(es, t) ==> ToEager(StateAt(p, es, t)) == EagerAt(p, es, t)
  }

  lemma {:induction false} LazyIsEager(p: Params, es: seq<Event>, t: real)
    requires ValidParams(p) && p.target == 1 && Timed(es, t)
    ensures ToEager(StateAt(p, es, t)) == EagerAt(p, es, t)
    decreases |es|
  {
    if es != [] {
      var n := |es| - 1;
      assert Timed(es[..n], es[n].at);
      LazyIsEager(p, es[..n], es[n].at);
      HistoryInvariant(p, es[..n]);
    }
  }

  /** n failures at time zero. */
  function Fails(n: nat): seq<Event> {
    if n == 0 then [] else Fails(n - 1) + [Event(Fail, 0.0)]
  }

  lemma Snoc(p: Params, es: seq<Event>, e: Event)
    ensures After(p, es + [e]) == Apply(p, After(p, es), e)
    ensures EagerAfter(p, es + [e]) == React(p, Elapse(p, EagerAfter(p, es), e.at), e.op, e.at)
  {
    assert (es + [e])[..|es|] == es;
  }

  lemma {:induction false} FailsTimed(n: nat)
    ensures |Fails(n)| == n && Timed(Fails(n), 0.0)
  {
    if n > 0 {
      FailsTimed(n - 1);
    }
  }

  lemma {:induction false} FailsTrip(p: Params, n: nat)
    requires ValidParams(p) && n <= p.threshold
    ensures After(p, Fails(n))
         == if n < p.threshold then Breaker(Closed, n, 0, None) else Breaker(Open, n, 0, Some(0.0))
    ensures EagerAfter(p, Fails(n)) == if n < p.threshold then Flowing(n) else Tripped(n, 0.0)
  {
    if n > 0 {
      FailsTrip(p, n - 1);
      Snoc(p, Fails(n - 1), Event(Fail, 0.0));
    }
  }

  lemma LateSuccess(p: Params, b: Breaker, a: Eager)
    requires ValidParams(p) && p.target > 1
    requires b == Breaker(Open, p.threshold, 0, Some(0.0)) && a == Tripped(p.threshold, 0.0)
    ensures Advance(p, Apply(p, b, Event(Succeed, p.cooldown)), p.cooldown) == FRESH
    ensures Elapse(p, React(p, Elapse(p, a, p.cooldown), Succeed, p.cooldown), p.cooldown) == Probing(p.threshold, 1)
  {
  }

  /** Above one, a success that arrives unobserved just after the cooldown closes the lazy breaker at
      once, while the automaton still wants more successes. */
  lemma LazyDiffers(p: Params) returns (es: seq<Event>)
    requires ValidParams(p) && p.target > 1
    ensures Timed(es, p.cooldown)
    ensures StateAt(p, es, p.cooldown) == FRESH && EagerAt(p, es, p.cooldown) == Probing(p.threshold, 1)
  {
    var n := p.threshold;
    FailsTimed(n);
    FailsTrip(p, n);
    es := Fails(n) + [Event(Succeed, p.cooldown)];
    Snoc(p, Fails(n), Event(Succeed, p.cooldown));
    LateSuccess(p, After(p, Fails(n)), EagerAfter(p, Fails(n)));
  }

  /** The lazily advanced breaker answers exactly as the automaton over all timed runs if and only if
      one success is enough to close it. */
  lemma LazyIsEagerIff(p: Params)
    requires ValidParams(p)
    ensures Agrees(p) <==> p.target == 1
  {
    if p.target == 1 {
      forall es, t | Timed(es, t) ensures ToEager(StateAt(p, es, t)) == EagerAt(p, es, t) {
        LazyIsEager(p, es, t);
      }
    } else {
      var es := LazyDiffers(p);
      assert ToEager(StateAt(p, es, p.cooldown)) != EagerAt(p, es, p.cooldown);
    }
  }

  // ----- Observations above one -----

  ghost predicate Unobservable(p: Params) {
    forall es, es', t :: Timed(es, t) && Timed(es', t) && Strip(es) == Strip(es') ==>
      StateAt(p, es, t) == StateAt(p, es', t)
  }

  /** A look just before the success moves the breaker to HALF_OPEN, where the success only counts. */
  lemma ObservedSuccess(p: Params, b: Breaker)
    requires ValidParams(p) && p.target > 1 && b == Breaker(Open, p.threshold, 0, Some(0.0))
    ensures var seen := Apply(p, b, Event(Look, p.cooldown));
      Advance(p, Apply(p, seen, Event(Succeed, p.cooldown)), p.cooldown) == Breaker(HalfOpen, p.threshold, 1, Some(0.0))
  {
  }

  lemma FailsThen(p: Params, tail: seq<Event>)
    requires ValidParams(p) && forall i :: 0 <= i < |tail| ==> tail[i].at == p.cooldown
    ensures Timed(Fails(p.threshold) + tail, p.cooldown)
  {
    FailsTimed(p.threshold);
  }

  /** The same late success, observed and unobserved. */
  lemma LookMatters(p: Params) returns (es: seq<Event>, es': seq<Event>)
    requires ValidParams(p) && p.target > 1
    ensures Timed(es, p.cooldown) && Timed(es', p.cooldown) && Strip(es) == Strip(es')
    ensures StateAt(p, es, p.cooldown) == FRESH && StateAt(p, es', p.cooldown).mode.HalfOpen?
  {
    var fails, look, late := Fails(p.threshold), Event(Look, p.cooldown), Event(Succeed, p.cooldown);
    es, es' := fails + [late], fails + [look] + [late];
    FailsThen(p, [late]);
    FailsThen(p, [look, late]);
    assert es' == fails + [look, late];
    StripSnoc(fails, late);
    StripSnoc(fails, look);
    StripSnoc(fails + [look], late);
    FailsTrip(p, p.threshold);
    Snoc(p, fails, late);
    Snoc(p, fails, look);
    Snoc(p, fails + [look], late);
    LateSuccess(p, After(p, fails), EagerAfter(p, fails));
    ObservedSuccess(p, After(p, fails));
  }

  /** Observations never change a later answer, over all timed runs, if and only if one success is
      enough to close the breaker. */
  lemma UnobservableIff(p: Params)
    requires ValidParams(p)
    ensures Unobservable(p) <==> p.target == 1
  {
    if p.target == 1 {
      forall es, es', t | Timed(es, t) && Timed(es', t) && Strip(es) == Strip(es')
        ensures StateAt(p, es, t) == StateAt(p, es', t)
      {
        ObservationsAreInvisible(p, es, es', t);
      }
    } else {
      var es, es' := LookMatters(p);
      assert StateAt(p, es, p.cooldown) != StateAt(p, es', p.cooldown);
    }
  }
}
