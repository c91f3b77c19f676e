/**
 Forwarding one request: the retry loop over endpoints, with everything it does to the endpoint
 governor, the upstreams and the breakers written to a log. What other tasks and the passing of
 time do between two awaits is an arbitrary environment, one record per pass.
 */
module Failover {
  import opened Common
  import opened Routing
  import opened RouteChoice

  /** Success, a typed upstream failure, or any other exception (a cancellation, say). */
  datatype Outcome = Answered | UpstreamFailed(retryable: bool) | Crashed

  /** What one pass meets: the routing inputs at selection, whether the wait for capacity succeeds,
      what the upstream does, and the routing inputs when a retry is considered. */
  datatype Pass = Pass(select: Instant, admitted: bool, outcome: Outcome, retry: Instant)

  datatype Action =
    | Acquired(name: string)
    | Released(name: string)
    | Contacted(name: string)
    | Succeeded(name: string)
    | FailedAt(name: string)

  datatype Reply = Buffered(name: string) | Streamed(name: string) | Failed | Unrouted | Propagated

  /** Whether a request may be tried on another endpoint at all. */
  predicate CanRetry(endpoint: string, w: Wanted) {
    !w.streaming && endpoint == ""
  }

  /** The next route to try after `failed`, if any. */
  function NextRoute(r: Router, w: Wanted, failed: set<string>, i: Instant): Option<Route> {
    match SelectCompatible(r, w, failed, i)
    case Some(x) => Some(x)
    case None => if FallbackOk(r, failed, i) then Some(r.default) else None
  }

  // ----- The governor's counter for one endpoint -----

  function Effect(a: Action, name: string, count: int): int {
    if a == Acquired(name) then count + 1
    else if a == Released(name) then Max(0, count - 1)
    else count
  }

  /** The counter after the log, starting from `count` slots held by others. */
  function Replay(log: seq<Action>, name: string, count: int): int
    decreases |log|
  {
    if log == [] then count else Replay(log[1..], name, Effect(log[0], name, count))
  }

  /** The log leaves every counter as it found it, however many slots others hold. */
  ghost predicate Neutral(log: seq<Action>) {
    forall name, count :: count >= 0 ==> Replay(log, name, count) == count
  }

  lemma {:induction false} ReplayConcat(a: seq<Action>, b: seq<Action>, name: string, count: int)
    ensures Replay(a + b, name, count) == Replay(b, name, Replay(a, name, count))
    decreases |a|
  {
    if a == [] {
      assert a + b == b;
    } else {
      assert (a + b)[1..] == a[1..] + b;
      ReplayConcat(a[1..], b, name, Effect(a[0], name, count));
    }
  }

  lemma NeutralConcat(a: seq<Action>, b: seq<Action>)
    requires Neutral(a) && Neutral(b)
    ensures Neutral(a + b)
  {
    forall name, count | count >= 0 ensures Replay(a + b, name, count) == count {
      ReplayConcat(a, b, name, count);
    }
  }

  /** The endpoint whose slot the request holds after the log. */
  function HeldAfter(log: seq<Action>): Option<string> {
    if log == [] then None
    else
      match log[|log| - 1]
      case Acquired(n) => Some(n)
      case Released(_) => None
      case _ => HeldAfter(log[..|log| - 1])
  }

  predicate FitsHeld(held: Option<string>, a: Action) {
    match a
    case Acquired(_) => held == None
    case Released(n) => held == Some(n)
    case Contacted(n) => held == Some(n)
    case _ => true
  }

  /** The request acquires only while it holds nothing, contacts only an endpoint whose slot it holds, and
      releases only what it holds. */
  predicate AllFit(log: seq<Action>) {
    log == [] || (AllFit(log[..|log| - 1]) && FitsHeld(HeldAfter(log[..|log| - 1]), log[|log| - 1]))
  }

  /** ... and ends with nothing in hand. */
  predicate Bracketed(log: seq<Action>) {
    HeldAfter(log) == None && AllFit(log)
  }

  lemma HeldSnoc(log: seq<Action>, a: Action)
    ensures AllFit(log + [a]) <==> AllFit(log) && FitsHeld(HeldAfter(log), a)
    ensures HeldAfter(log + [a]) == match a
                                    case Acquired(n) => Some(n)
                                    case Released(_) => None
                                    case _ => HeldAfter(log)
  {
    assert (log + [a])[..|log|] == log;
  }

  /** Every prefix of a fitting log fits, and its next action fits what is held. */
  lemma {:induction false} FitsAt(log: seq<Action>, k: nat)
    requires AllFit(log) && k <= |log|
    ensures AllFit(log[..k]) && (k < |log| ==> FitsHeld(HeldAfter(log[..k]), log[k]))
    decreases |log|
  {
    if k == |log| {
      assert log[..k] == log;
    } else if k < |log| - 1 {
      FitsAt(log[..|log| - 1], k);
      assert log[..|log| - 1][..k] == log[..k];
    }
  }

  lemma {:induction false} BracketedConcat(a: seq<Action>, b: seq<Action>)
    requires Bracketed(a) && AllFit(b)
    ensures AllFit(a + b) && HeldAfter(a + b) == HeldAfter(b)
    decreases |b|
  {
    if b == [] {
      assert a + b == a;
    } else {
      var front, last := b[..|b| - 1], b[|b| - 1];
      BracketedConcat(a, front);
      assert a + b == (a + front) + [last] && b == front + [last];
      HeldSnoc(a + front, last);
      HeldSnoc(front, last);
    }
  }

  lemma PassBracketed(name: string, o: Outcome)
    ensures Bracketed(PassLog(name, o))
  {
    var two := [Acquired(name)] + [Contacted(name)];
    assert [] + [Acquired(name)] == [Acquired(name)];
    HeldSnoc([], Acquired(name));
    HeldSnoc([Acquired(name)], Contacted(name));
    match o
    case Answered =>
      HeldSnoc(two, Succeeded(name));
      HeldSnoc(two + [Succeeded(name)], Released(name));
      assert PassLog(name, o) == two + [Succeeded(name)] + [Released(name)];
    case UpstreamFailed(_) =>
      HeldSnoc(two, Released(name));
      HeldSnoc(two + [Released(name)], FailedAt(name));
      assert PassLog(name, o) == two + [Released(name)] + [FailedAt(name)];
    case Crashed =>
      HeldSnoc(two, Released(name));
      assert PassLog(name, o) == two + [Released(name)];
  }

  /** What one pass does from its acquire on. */
  function PassLog(name: string, o: Outcome): seq<Action> {
    [Acquired(name), Contacted(name)] + (
      match o
      case Answered => [Succeeded(name), Released(name)]
      case UpstreamFailed(_) => [Released(name), FailedAt(name)]
      case Crashed => [Released(name)])
  }

  lemma PassLogNeutral(name: string, o: Outcome)
    ensures Neutral(PassLog(name, o))
  {
    forall n, count | count >= 0 ensures Replay(PassLog(name, o), n, count) == count {
      var taken := Effect(Acquired(name), n, count);
      var rest := PassLog(name, o)[1..];
      assert PassLog(name, o) == [Acquired(name)] + rest;
      ReplayCons(Acquired(name), rest, n, count);
      assert rest == [Contacted(name)] + rest[1..];
      ReplayCons(Contacted(name), rest[1..], n, taken);
      match o
      case Answered =>
        assert rest[1..] == [Succeeded(name)] + ([Released(name)] + []);
        ReplayCons(Succeeded(name), [Released(name)] + [], n, taken);
        ReplayCons(Released(name), [], n, taken);
      case UpstreamFailed(_) =>
        assert rest[1..] == [Released(name)] + ([FailedAt(name)] + []);
        ReplayCons(Released(name), [FailedAt(name)] + [], n, taken);
        ReplayCons(FailedAt(name), [], n, count);
      case Crashed =>
        assert rest[1..] == [Released(name)] + [];
        ReplayCons(Released(name), [], n, taken);
    }
  }

  lemma ReplayCons(a: Action, rest: seq<Action>, name: string, count: int)
    ensures Replay([a] + rest, name, count) == Replay(rest, name, Effect(a, name, count))
  {
    assert ([a] + rest)[1..] == rest;
  }

  // ----- The loop -----

  /** How often an action occurs in the log. */
  function Times(log: seq<Action>, a: Action): nat {
    multiset(log)[a]
  }

  lemma TimesConcat(a: seq<Action>, b: seq<Action>, x: Action)
    ensures Times(a + b, x) == Times(a, x) + Times(b, x)
  {
    assert multiset(a + b) == multiset(a) + multiset(b);
  }

  lemma TimesIn(log: seq<Action>, x: Action)
    ensures x in log <==> Times(log, x) > 0
  {
    assert x in log <==> x in multiset(log);
  }

  /** Contacts and outcomes recorded so far: each failed endpoint exactly once, no other. */
  ghost predicate Tally(log: seq<Action>, failed: set<string>) {
    forall n ::
      && Times(log, Contacted(n)) == (if n in failed then 1 else 0)
      && Times(log, FailedAt(n)) == (if n in failed then 1 else 0)
      && Times(log, Succeeded(n)) == 0
      && Times(log, Acquired(n)) == Times(log, Released(n))
  }

  ghost predicate ContactedOnce(r: Router, log: seq<Action>) {
    forall n :: Times(log, Contacted(n)) <= 1 && (Contacted(n) in log ==> n in Names(r.routes))
  }

  ghost predicate OneOutcomeEach(log: seq<Action>) {
    forall n :: Times(log, Succeeded(n)) + Times(log, FailedAt(n)) == Times(log, Contacted(n))
  }

  /** Every contact has exactly one outcome, except that the last one may lack it if the log breaks off there. */
  ghost predicate OutcomesBarLast(log: seq<Action>) {
    forall n ::
      var outcomes := Times(log, Succeeded(n)) + Times(log, FailedAt(n));
      outcomes == Times(log, Contacted(n)) || (outcomes + 1 == Times(log, Contacted(n)) && BreaksOff(log, n))
  }

  predicate BreaksOff(log: seq<Action>, name: string) {
    |log| >= 2 && log[|log| - 2] == Contacted(name) && log[|log| - 1] == Released(name)
  }

  ghost predicate Balanced(log: seq<Action>) {
    Neutral(log) && forall n :: Times(log, Acquired(n)) == Times(log, Released(n))
  }

  /** The log between passes meets every promise. */
  lemma IdleLog(r: Router, log: seq<Action>, failed: set<string>)
    requires Tally(log, failed) && Neutral(log) && failed <= Names(r.routes)
    ensures ContactedOnce(r, log) && OneOutcomeEach(log) && Balanced(log)
  {
    forall n | Contacted(n) in log ensures n in Names(r.routes) {
      TimesIn(log, Contacted(n));
    }
  }

  /** The counts after a pass over `name` that followed failures at `failed`. */
  ghost predicate PassTally(log: seq<Action>, failed: set<string>, name: string, o: Outcome) {
    forall n :: TalliedAt(log, failed, name, o, n)
  }

  ghost predicate TalliedAt(log: seq<Action>, failed: set<string>, name: string, o: Outcome, n: string) {
    && Times(log, Contacted(n)) == (if n in failed + {name} then 1 else 0)
    && Times(log, FailedAt(n)) == (if n in failed || (n == name && o.UpstreamFailed?) then 1 else 0)
    && Times(log, Succeeded(n)) == (if n == name && o.Answered? then 1 else 0)
    && Times(log, Acquired(n)) == Times(log, Released(n))
  }

  lemma TailTimes(name: string, o: Outcome, n: string)
    ensures var tail := PassLog(name, o);
      && Times(tail, Contacted(n)) == (if n == name then 1 else 0)
      && Times(tail, FailedAt(n)) == (if n == name && o.UpstreamFailed? then 1 else 0)
      && Times(tail, Succeeded(n)) == (if n == name && o.Answered? then 1 else 0)
      && Times(tail, Acquired(n)) == Times(tail, Released(n))
  {
  }

  lemma PassTimes(before: seq<Action>, failed: set<string>, name: string, o: Outcome)
    requires Tally(before, failed) && name !in failed
    ensures PassTally(before + PassLog(name, o), failed, name, o)
  {
    var tail := PassLog(name, o);
    forall n ensures TalliedAt(before + tail, failed, name, o, n) {
      TailTimes(name, o, n);
      TimesConcat(before, tail, Contacted(n));
      TimesConcat(before, tail, FailedAt(n));
      TimesConcat(before, tail, Succeeded(n));
      TimesConcat(before, tail, Acquired(n));
      TimesConcat(before, tail, Released(n));
    }
  }

  lemma PassTallyMeans(r: Router, log: seq<Action>, failed: set<string>, name: string, o: Outcome)
    requires PassTally(log, failed, name, o) && failed <= Names(r.routes) && name in Names(r.routes) && name !in failed
    ensures ContactedOnce(r, log) && (!o.Crashed? ==> OneOutcomeEach(log))
    ensures BreaksOff(log, name) ==> OutcomesBarLast(log)
    ensures o.UpstreamFailed? ==> Tally(log, failed + {name})
    ensures o.Answered? ==> Succeeded(name) in log
  {
    forall n ensures Times(log, Contacted(n)) <= 1 && (Contacted(n) in log ==> n in Names(r.routes)) {
      TimesIn(log, Contacted(n));
      assert TalliedAt(log, failed, name, o, n);
    }
    TimesIn(log, Succeeded(name));
    assert TalliedAt(log, failed, name, o, name);
    assert forall n :: Times(log, Contacted(n)) >= 0 ==> TalliedAt(log, failed, name, o, n);
  }

  /** One more pass, over an endpoint that has not failed before, keeps every promise. */
  lemma PassKeeps(r: Router, before: seq<Action>, failed: set<string>, name: string, o: Outcome, log: seq<Action>)
    requires Tally(before, failed) && Neutral(before) && failed <= Names(r.routes)
    requires name in Names(r.routes) && name !in failed && log == before + PassLog(name, o)
    ensures ContactedOnce(r, log) && Balanced(log)
    ensures if o.Crashed? then OutcomesBarLast(log) else OneOutcomeEach(log)
    ensures o.UpstreamFailed? ==> Tally(log, failed + {name})
    ensures o.Answered? ==> Succeeded(name) in log
  {
    PassLogNeutral(name, o);
    NeutralConcat(before, PassLog(name, o));
    PassTimes(before, failed, name, o);
    PassTallyMeans(r, log, failed, name, o);
    assert o.Crashed? ==> BreaksOff(log, name);
  }

  /** A refused explicit choice leaves one breaker failure and nothing else. */
  lemma UnroutedLog(r: Router, name: string)
    ensures ContactedOnce(r, [FailedAt(name)]) && Balanced([FailedAt(name)]) && Bracketed([FailedAt(name)])
  {
    assert [] + [FailedAt(name)] == [FailedAt(name)];
    HeldSnoc([], FailedAt(name));
    forall n, count ensures Replay([FailedAt(name)], n, count) == count {
      assert [FailedAt(name)] == [FailedAt(name)] + [];
      ReplayCons(FailedAt(name), [], n, count);
    }
  }

  /** The finally clause: gives back the slot if it is still marked as acquired. */
  function Finally(log: seq<Action>, name: string, capacityAcquired: bool): seq<Action> {
    if capacityAcquired then log + [Released(name)] else log
  }

  lemma StreamNeutral(name: string)
    ensures Neutral([Acquired(name), Released(name)])
  {
    var log := [Acquired(name), Released(name)];
    forall n, count | count >= 0 ensures Replay(log, n, count) == count {
      assert log == [Acquired(name)] + ([Released(name)] + []);
      ReplayCons(Acquired(name), [Released(name)] + [], n, count);
      ReplayCons(Released(name), [], n, Effect(Acquired(name), n, count));
    }
  }

  lemma StreamBracketed(name: string)
    ensures Bracketed([Acquired(name), Released(name)])
  {
    assert [] + [Acquired(name)] == [Acquired(name)];
    HeldSnoc([], Acquired(name));
    HeldSnoc([Acquired(name)], Released(name));
    assert [Acquired(name)] + [Released(name)] == [Acquired(name), Released(name)];
  }

  /** A failure of an explicit choice names that endpoint; any other failure names none. */
  lemma RefusalNames(r: Router, endpoint: string, w: Wanted, failed: set<string>, i: Instant)
    requires SelectRoute(r, endpoint, w, failed, i).Refused?
    ensures NamedEndpoint(SelectRoute(r, endpoint, w, failed, i).failure)
         == if endpoint == "" then None else Some(endpoint)
  {
  }

  /** A refusal counts against the breaker of the endpoint it names; only explicit choices name one. */
  method RecordRefusal(r: Router, endpoint: string, w: Wanted, failed: set<string>, i: Instant,
                       before: seq<Action>, failure: Failure) returns (log: seq<Action>)
    requires SelectRoute(r, endpoint, w, failed, i) == Refused(failure)
    requires endpoint != "" ==> before == []
    ensures log == if endpoint == "" then before else [FailedAt(endpoint)]
    ensures endpoint != "" ==> ContactedOnce(r, log) && Balanced(log) && Bracketed(log)
  {
    log := before;
    RefusalNames(r, endpoint, w, failed, i);
    var named := NamedEndpoint(failure);
    if named.Some? {
      log := log + [FailedAt(named.value)];
      UnroutedLog(r, endpoint);
    }
  }

  /** The streaming branch: it returns with the slot still marked, so the finally clause releases it. */
  method OpenStream(r: Router, before: seq<Action>, name: string) returns (log: seq<Action>)
    requires before == []
    ensures log == [Acquired(name), Released(name)]
    ensures ContactedOnce(r, log) && OneOutcomeEach(log) && Balanced(log) && Bracketed(log)
  {
    log := before + [Acquired(name)];
    var capacityAcquired := true;
    log := Finally(log, name, capacityAcquired);
    assert log == [Acquired(name), Released(name)];
    StreamNeutral(name);
    StreamBracketed(name);
  }

  /** The buffered branch, from the acquire to the finally clause. */
  method Attempt(before: seq<Action>, name: string, outcome: Outcome) returns (log: seq<Action>)
    ensures log == before + PassLog(name, outcome)
  {
    log := before + [Acquired(name)];
    var capacityAcquired := true;
    log := log + [Contacted(name)];
    match outcome {
      case Answered =>
        log := log + [Succeeded(name)];
        log := log + [Released(name)];
        capacityAcquired := false;
      case UpstreamFailed(_) =>
        if capacityAcquired {
          log := log + [Released(name)];
          capacityAcquired := false;
        }
        log := log + [FailedAt(name)];
      case Crashed =>
    }
    log := Finally(log, name, capacityAcquired);
  }

  // ----- How long the loop can run -----

  /** Whether a pass over x ends in a retry: a retryable failure, and something else to try. */
  predicate RetriesOn(r: Router, endpoint: string, w: Wanted, failed: set<string>, e: Pass, x: Route) {
    && e.admitted && !(w.streaming && x.streaming) && CanRetry(endpoint, w)
    && e.outcome == UpstreamFailed(true) && NextRoute(r, w, failed + {x.name}, e.retry).Some?
  }

  /** The failed endpoints after one more pass if that pass ends in a retry. */
  function Retried(r: Router, endpoint: string, w: Wanted, failed: set<string>, e: Pass): Option<set<string>> {
    match SelectRoute(r, endpoint, w, failed, e.select)
    case Refused(_) => None
    case Selected(x) =>
      if RetriesOn(r, endpoint, w, failed, e, x) then Some(failed + {x.name}) else None
  }

  /** The set reached by n steps that all go on. */
  function Trace(step: (nat, set<string>) -> Option<set<string>>, n: nat): Option<set<string>> {
    if n == 0 then Some({})
    else
      match Trace(step, n - 1)
      case None => None
      case Some(failed) => step(n - 1, failed)
  }

  /** The failed endpoints after n passes that all ended in a retry. */
  function FailedAfter(r: Router, endpoint: string, w: Wanted, env: nat -> Pass, n: nat): Option<set<string>> {
    Trace((k: nat, failed: set<string>) => Retried(r, endpoint, w, failed, env(k)), n)
  }

  /** The request ends in the pass after n retries, and n is at most the number of routes. */
  ghost predicate EndsAfter(r: Router, endpoint: string, w: Wanted, env: nat -> Pass, n: nat) {
    && n <= |Names(r.routes)|
    && FailedAfter(r, endpoint, w, env, n).Some? && FailedAfter(r, endpoint, w, env, n + 1).None?
  }

  ghost predicate Endless(r: Router, endpoint: string, w: Wanted, env: nat -> Pass) {
    forall n: nat :: FailedAfter(r, endpoint, w, env, n).Some?
  }

  lemma {:induction false} TraceGrows(step: (nat, set<string>) -> Option<set<string>>, names: set<string>, n: nat)
    requires forall k, failed | failed <= names && step(k, failed).Some? ::
      step(k, failed).value <= names && |step(k, failed).value| == |failed| + 1
    requires Trace(step, n).Some?
    ensures Trace(step, n).value <= names && |Trace(step, n).value| == n <= |names|
  {
    if n > 0 {
      TraceGrows(step, names, n - 1);
    }
    SubsetSize(Trace(step, n).value, names);
  }

  lemma RetriedGrows(r: Router, endpoint: string, w: Wanted, failed: set<string>, e: Pass)
    requires ValidRouter(r) && (w.family.Some? || !CanRetry(endpoint, w))
    requires failed <= Names(r.routes) && Retried(r, endpoint, w, failed, e).Some?
    ensures var after := Retried(r, endpoint, w, failed, e).value;
      after <= Names(r.routes) && |after| == |failed| + 1
  {
    SelectedIsUsable(r, endpoint, w, failed, e.select);
    var x := SelectRoute(r, endpoint, w, failed, e.select).route;
    assert x.name !in failed && x.name in Names(r.routes);
  }

  /** Over a known family every retry excludes one more configured route. */
  lemma RetriesExclude(r: Router, endpoint: string, w: Wanted, env: nat -> Pass, n: nat)
    requires ValidRouter(r) && (w.family.Some? || !CanRetry(endpoint, w))
    requires FailedAfter(r, endpoint, w, env, n).Some?
    ensures var failed := FailedAfter(r, endpoint, w, env, n).value;
      failed <= Names(r.routes) && |failed| == n <= |Names(r.routes)|
  {
    forall k: nat, failed | failed <= Names(r.routes) && Retried(r, endpoint, w, failed, env(k)).Some?
      ensures var after := Retried(r, endpoint, w, failed, env(k)).value;
        after <= Names(r.routes) && |after| == |failed| + 1
    {
      RetriedGrows(r, endpoint, w, failed, env(k));
    }
    TraceGrows((k: nat, failed: set<string>) => Retried(r, endpoint, w, failed, env(k)), Names(r.routes), n);
  }

  lemma OnePassMore(r: Router, endpoint: string, w: Wanted, env: nat -> Pass, n: nat, failed: set<string>)
    requires FailedAfter(r, endpoint, w, env, n) == Some(failed)
    ensures FailedAfter(r, endpoint, w, env, n + 1) == Retried(r, endpoint, w, failed, env(n))
  {
  }

  lemma {:induction false} UnknownFamilyRetries(r: Router, w: Wanted, env: nat -> Pass, n: nat)
    requires w.family.None? && !w.streaming
    requires forall k: nat :: env(k).admitted && env(k).outcome == UpstreamFailed(true)
    ensures FailedAfter(r, "", w, env, n).Some?
  {
    if n > 0 {
      UnknownFamilyRetries(r, w, env, n - 1);
      OnePassMore(r, "", w, env, n - 1, FailedAfter(r, "", w, env, n - 1).value);
    }
  }

  /** Some behaviour of the upstreams keeps a request retrying for ever exactly when the family name
      is unknown and retries are possible: the default route is then chosen again and again. */
  lemma EndlessIff(r: Router, endpoint: string, w: Wanted)
    requires ValidRouter(r)
    ensures (exists env: nat -> Pass :: Endless(r, endpoint, w, env)) <==> w.family.None? && CanRetry(endpoint, w)
  {
    if w.family.None? && CanRetry(endpoint, w) {
      var i := Instant({}, map[], {});
      var env: nat -> Pass := (k: nat) => Pass(i, true, UpstreamFailed(true), i);
      forall n: nat ensures FailedAfter(r, endpoint, w, env, n).Some? {
        UnknownFamilyRetries(r, w, env, n);
      }
      assert Endless(r, endpoint, w, env);
    } else {
      forall env: nat -> Pass ensures !Endless(r, endpoint, w, env) {
        var n := |Names(r.routes)| + 1;
        if FailedAfter(r, endpoint, w, env, n).Some? {
          RetriesExclude(r, endpoint, w, env, n);
        }
      }
    }
  }

  /** What holds of the reply and the log when a request ends. */
  ghost predicate Promised(r: Router, endpoint: string, w: Wanted, reply: Reply, log: seq<Action>) {
    && ContactedOnce(r, log) && Balanced(log) && Bracketed(log)
    && (!reply.Propagated? && (endpoint == "" || !reply.Unrouted?) ==> OneOutcomeEach(log))
    && (reply.Propagated? ==> OutcomesBarLast(log))
    && (endpoint != "" && reply.Unrouted? ==> log == [FailedAt(endpoint)])
    && (forall n :: Succeeded(n) in log <==> reply == Buffered(n))
    && (reply.Streamed? ==> w.streaming && log == [Acquired(reply.name), Released(reply.name)])
  }

  /** Another route than x could still be tried: one that serves the request and may carry it, or the default. */
  ghost predicate AnotherRoute(r: Router, w: Wanted, failed: set<string>, i: Instant) {
    MayCarry(failed, i, r.default) || w.family == None || SomeServes(r, w, failed, i)
  }

  /** How the last pass, which starts after the endpoints in `failed` have failed, decides the reply. */
  ghost predicate Answers(r: Router, endpoint: string, w: Wanted, failed: set<string>, e: Pass, reply: Reply) {
    match SelectRoute(r, endpoint, w, failed, e.select)
    case Refused(_) => reply == Unrouted
    case Selected(x) =>
      if !e.admitted then reply == Propagated
      else if w.streaming && x.streaming then reply == Streamed(x.name)
      else
        match e.outcome
        case Answered => reply == Buffered(x.name)
        case Crashed => reply == Propagated
        case UpstreamFailed(retryable) =>
          && reply == Failed
          && !(retryable && !w.streaming && endpoint == "" && AnotherRoute(r, w, failed + {x.name}, e.retry))
  }

  /** A pass that goes on: its endpoint failed in a way that may be retried, and another route is left. */
  ghost predicate GoesOn(r: Router, endpoint: string, w: Wanted, failed: set<string>, e: Pass, after: set<string>) {
    match SelectRoute(r, endpoint, w, failed, e.select)
    case Refused(_) => false
    case Selected(x) =>
      && e.admitted && !w.streaming && endpoint == "" && e.outcome == UpstreamFailed(true)
      && after == failed + {x.name} && AnotherRoute(r, w, after, e.retry)
  }

  /** The endpoint the pass contacts in the buffered branch. */
  predicate ContactsNow(r: Router, endpoint: string, w: Wanted, failed: set<string>, e: Pass, n: string) {
    match SelectRoute(r, endpoint, w, failed, e.select)
    case Refused(_) => false
    case Selected(x) => e.admitted && !(w.streaming && x.streaming) && n == x.name
  }

  /** Contacted were the endpoints that failed before and the one the last pass reached. */
  ghost predicate Contacts(r: Router, endpoint: string, w: Wanted, failed: set<string>, e: Pass, log: seq<Action>) {
    forall n :: Contacted(n) in log <==> n in failed || ContactsNow(r, endpoint, w, failed, e, n)
  }

  lemma TallyContacts(log: seq<Action>, failed: set<string>)
    requires Tally(log, failed)
    ensures forall n :: Contacted(n) in log <==> n in failed
  {
    forall n ensures Contacted(n) in log <==> n in failed {
      TimesIn(log, Contacted(n));
    }
  }

  lemma PassContacts(before: seq<Action>, failed: set<string>, name: string, o: Outcome)
    requires Tally(before, failed)
    ensures forall n :: Contacted(n) in before + PassLog(name, o) <==> n in failed || n == name
  {
    TallyContacts(before, failed);
    assert forall n :: Contacted(n) in PassLog(name, o) <==> n == name;
  }

  lemma NextRouteMeans(r: Router, w: Wanted, failed: set<string>, i: Instant)
    ensures NextRoute(r, w, failed, i).Some? <==> AnotherRoute(r, w, failed, i)
  {
    if w.family.Some? {
      CompatibleIsBest(r, w, failed, i);
      SomeServesMeans(r, w, failed, i);
    }
  }

  /** What holds of the log when the loop goes round. */
  ghost predicate Pending(r: Router, endpoint: string, w: Wanted, failed: set<string>, log: seq<Action>) {
    && failed <= Names(r.routes) && Tally(log, failed) && Neutral(log) && Bracketed(log)
    && (failed != {} ==> CanRetry(endpoint, w)) && (!CanRetry(endpoint, w) ==> log == [])
  }

  /** Between passes the log meets every promise. */
  lemma PendingPromises(r: Router, endpoint: string, w: Wanted, failed: set<string>, log: seq<Action>)
    requires Pending(r, endpoint, w, failed, log)
    ensures ContactedOnce(r, log) && OneOutcomeEach(log) && Balanced(log) && Bracketed(log)
    ensures Promised(r, endpoint, w, Propagated, log)
    ensures endpoint == "" ==> Promised(r, endpoint, w, Unrouted, log)
  {
    IdleLog(r, log, failed);
  }

  lemma StartPending(r: Router, endpoint: string, w: Wanted)
    ensures Pending(r, endpoint, w, {}, [])
  {
  }

  lemma PassBrackets(before: seq<Action>, name: string, o: Outcome)
    requires Bracketed(before)
    ensures Bracketed(before + PassLog(name, o))
  {
    PassBracketed(name, o);
    BracketedConcat(before, PassLog(name, o));
  }

  lemma PassPromises(r: Router, endpoint: string, w: Wanted, failed: set<string>, before: seq<Action>,
                     name: string, o: Outcome, reply: Reply)
    requires Pending(r, endpoint, w, failed, before) && name in Names(r.routes) && name !in failed
    requires match o
             case Answered => reply == Buffered(name)
             case UpstreamFailed(_) => reply == Failed
             case Crashed => reply == Propagated
    ensures Promised(r, endpoint, w, reply, before + PassLog(name, o))
  {
    var log := before + PassLog(name, o);
    PassKeeps(r, before, failed, name, o, log);
    PassBrackets(before, name, o);
    PassSucceeds(before, failed, name, o);
  }

  lemma PassSucceeds(before: seq<Action>, failed: set<string>, name: string, o: Outcome)
    requires Tally(before, failed)
    ensures forall n :: Succeeded(n) in before + PassLog(name, o) <==> o == Answered && n == name
  {
    forall n ensures Succeeded(n) !in before {
      TimesIn(before, Succeeded(n));
    }
    assert forall n :: Succeeded(n) in PassLog(name, o) <==> o == Answered && n == name;
  }

  lemma PassPends(r: Router, endpoint: string, w: Wanted, failed: set<string>, before: seq<Action>,
                  name: string, o: Outcome)
    requires Pending(r, endpoint, w, failed, before) && name in Names(r.routes) && name !in failed
    requires o.UpstreamFailed? && CanRetry(endpoint, w)
    ensures Pending(r, endpoint, w, failed + {name}, before + PassLog(name, o))
  {
    PassKeeps(r, before, failed, name, o, before + PassLog(name, o));
    PassBrackets(before, name, o);
  }

  /** The buffered part of a pass. */
  method TryRoute(r: Router, endpoint: string, w: Wanted, failed: set<string>, e: Pass,
                  before: seq<Action>, x: Route)
    returns (reply: Option<Reply>, log: seq<Action>, failed': set<string>)
    requires Pending(r, endpoint, w, failed, before) && x.name in Names(r.routes) && x.name !in failed
    requires e.admitted && !(w.streaming && x.streaming)
    requires SelectRoute(r, endpoint, w, failed, e.select) == Selected(x)
    ensures reply.None? <==> RetriesOn(r, endpoint, w, failed, e, x)
    ensures reply.None? ==>
      && failed' == failed + {x.name} && Pending(r, endpoint, w, failed', log)
      && GoesOn(r, endpoint, w, failed, e, failed')
    ensures reply.Some? ==>
      && Promised(r, endpoint, w, reply.value, log) && Answers(r, endpoint, w, failed, e, reply.value)
      && forall n :: Contacted(n) in log <==> n in failed || n == x.name
  {
    failed' := failed;
    log := Attempt(before, x.name, e.outcome);
    PassContacts(before, failed, x.name, e.outcome);
    match e.outcome {
      case Answered =>
        reply := Some(Buffered(x.name));
        PassPromises(r, endpoint, w, failed, before, x.name, e.outcome, Buffered(x.name));
      case Crashed =>
        reply := Some(Propagated);
        PassPromises(r, endpoint, w, failed, before, x.name, e.outcome, Propagated);
      case UpstreamFailed(retryable) =>
        NextRouteMeans(r, w, failed + {x.name}, e.retry);
        if CanRetry(endpoint, w) && retryable && NextRoute(r, w, failed + {x.name}, e.retry).Some? {
          PassPends(r, endpoint, w, failed, before, x.name, e.outcome);
          failed' := failed + {x.name};
          reply := None;
        } else {
          reply := Some(Failed);
          PassPromises(r, endpoint, w, failed, before, x.name, e.outcome, Failed);
        }
    }
  }

  /** A pass without a route. */
  method EndUnrouted(r: Router, endpoint: string, w: Wanted, failed: set<string>, e: Pass, before: seq<Action>)
    returns (log: seq<Action>)
    requires Pending(r, endpoint, w, failed, before) && SelectRoute(r, endpoint, w, failed, e.select).Refused?
    ensures Promised(r, endpoint, w, Unrouted, log) && Answers(r, endpoint, w, failed, e, Unrouted)
    ensures Contacts(r, endpoint, w, failed, e, log)
  {
    PendingPromises(r, endpoint, w, failed, before);
    TallyContacts(before, failed);
    var failure := SelectRoute(r, endpoint, w, failed, e.select).failure;
    log := RecordRefusal(r, endpoint, w, failed, e.select, before, failure);
  }

  /** A pass that opens a stream. */
  method EndStreamed(r: Router, endpoint: string, w: Wanted, failed: set<string>, e: Pass,
                     before: seq<Action>, x: Route)
    returns (log: seq<Action>)
    requires Pending(r, endpoint, w, failed, before) && SelectRoute(r, endpoint, w, failed, e.select) == Selected(x)
    requires e.admitted && w.streaming && x.streaming
    ensures Promised(r, endpoint, w, Streamed(x.name), log) && Answers(r, endpoint, w, failed, e, Streamed(x.name))
    ensures Contacts(r, endpoint, w, failed, e, log)
  {
    TallyContacts(before, failed);
    log := OpenStream(r, before, x.name);
  }

  /** A pass whose wait for capacity is cancelled. */
  lemma EndUnadmitted(r: Router, endpoint: string, w: Wanted, failed: set<string>, e: Pass, log: seq<Action>)
    requires Pending(r, endpoint, w, failed, log) && SelectRoute(r, endpoint, w, failed, e.select).Selected?
    requires !e.admitted
    ensures Promised(r, endpoint, w, Propagated, log) && Answers(r, endpoint, w, failed, e, Propagated)
    ensures Contacts(r, endpoint, w, failed, e, log)
  {
    PendingPromises(r, endpoint, w, failed, log);
    TallyContacts(log, failed);
  }

  /** One pass of the loop: it answers, or leaves one more failed endpoint and goes on. */
  method TryOnce(r: Router, endpoint: string, w: Wanted, failed: set<string>, e: Pass, before: seq<Action>)
    returns (reply: Option<Reply>, log: seq<Action>, failed': set<string>)
    requires ValidRouter(r) && (w.family.Some? || !CanRetry(endpoint, w))
    requires Pending(r, endpoint, w, failed, before)
    ensures Retried(r, endpoint, w, failed, e) == if reply.None? then Some(failed') else None
    ensures reply.None? ==> Pending(r, endpoint, w, failed', log) && GoesOn(r, endpoint, w, failed, e, failed')
    ensures reply.Some? ==>
      && Promised(r, endpoint, w, reply.value, log) && Answers(r, endpoint, w, failed, e, reply.value)
      && Contacts(r, endpoint, w, failed, e, log)
  {
    log, failed' := before, failed;
    var choice := SelectRoute(r, endpoint, w, failed, e.select);
    if choice.Refused? {
      log := EndUnrouted(r, endpoint, w, failed, e, before);
      return Some(Unrouted), log, failed;
    }
    var route := choice.route;
    SelectedIsUsable(r, endpoint, w, failed, e.select);
    if !e.admitted {
      EndUnadmitted(r, endpoint, w, failed, e, log);
      return Some(Propagated), log, failed;
    }
    if w.streaming && route.streaming {
      log := EndStreamed(r, endpoint, w, failed, e, before, route);
      return Some(Streamed(route.name)), log, failed;
    }
    reply, log, failed' := TryRoute(r, endpoint, w, failed, e, before, route);
  }

  /** The pass after `pass` retries. */
  method TryNext(r: Router, endpoint: string, w: Wanted, env: nat -> Pass, pass: nat, failed: set<string>,
                 before: seq<Action>)
    returns (reply: Option<Reply>, log: seq<Action>, failed': set<string>)
    requires ValidRouter(r) && (w.family.Some? || !CanRetry(endpoint, w))
    requires FailedAfter(r, endpoint, w, env, pass) == Some(failed) && Pending(r, endpoint, w, failed, before)
    ensures pass <= |Names(r.routes)|
    ensures FailedAfter(r, endpoint, w, env, pass + 1) == if reply.None? then Some(failed') else None
    ensures reply.None? ==> Pending(r, endpoint, w, failed', log) && GoesOn(r, endpoint, w, failed, env(pass), failed')
    ensures reply.Some? ==>
      && Promised(r, endpoint, w, reply.value, log) && Answers(r, endpoint, w, failed, env(pass), reply.value)
      && Contacts(r, endpoint, w, failed, env(pass), log)
  {
    RetriesExclude(r, endpoint, w, env, pass);
    OnePassMore(r, endpoint, w, env, pass, failed);
    reply, log, failed' := TryOnce(r, endpoint, w, failed, env(pass), before);
  }

  /** The endpoints that have failed, before the first pass and after each pass that goes on. */
  ghost predicate Trail(r: Router, endpoint: string, w: Wanted, env: nat -> Pass, trail: seq<set<string>>) {
    && trail != [] && trail[0] == {}
    && forall k :: 0 < k < |trail| ==> GoesOn(r, endpoint, w, trail[k - 1], env(k - 1), trail[k])
  }

  lemma TrailGrows(r: Router, endpoint: string, w: Wanted, env: nat -> Pass, trail: seq<set<string>>, next: set<string>)
    requires Trail(r, endpoint, w, env, trail)
    requires GoesOn(r, endpoint, w, trail[|trail| - 1], env(|trail| - 1), next)
    ensures Trail(r, endpoint, w, env, trail + [next])
  {
  }

  /** The loop stands before the pass numbered |trail| - 1. */
  ghost predicate AtPass(r: Router, endpoint: string, w: Wanted, env: nat -> Pass,
                         failed: set<string>, log: seq<Action>, trail: seq<set<string>>) {
    && Trail(r, endpoint, w, env, trail) && failed == trail[|trail| - 1]
    && FailedAfter(r, endpoint, w, env, |trail| - 1) == Some(failed)
    && Pending(r, endpoint, w, failed, log)
  }

  /** The request has ended in the pass numbered |trail| - 1: every pass before it failed in a way that may
      be retried with another route left, and that pass decides the reply. */
  ghost predicate Delivered(r: Router, endpoint: string, w: Wanted, env: nat -> Pass,
                            reply: Reply, log: seq<Action>, trail: seq<set<string>>) {
    && Trail(r, endpoint, w, env, trail)
    && EndsAfter(r, endpoint, w, env, |trail| - 1)
    && Promised(r, endpoint, w, reply, log)
    && Answers(r, endpoint, w, trail[|trail| - 1], env(|trail| - 1), reply)
    && Contacts(r, endpoint, w, trail[|trail| - 1], env(|trail| - 1), log)
  }

  lemma TurnGoesOn(r: Router, endpoint: string, w: Wanted, env: nat -> Pass,
                   next: set<string>, log: seq<Action>, trail: seq<set<string>>)
    requires Trail(r, endpoint, w, env, trail) && Pending(r, endpoint, w, next, log)
    requires GoesOn(r, endpoint, w, trail[|trail| - 1], env(|trail| - 1), next)
    requires FailedAfter(r, endpoint, w, env, |trail|) == Some(next)
    ensures AtPass(r, endpoint, w, env, next, log, trail + [next])
  {
    TrailGrows(r, endpoint, w, env, trail, next);
  }

  lemma TurnEnds(r: Router, endpoint: string, w: Wanted, env: nat -> Pass,
                 reply: Reply, log: seq<Action>, trail: seq<set<string>>)
    requires Trail(r, endpoint, w, env, trail) && |trail| - 1 <= |Names(r.routes)|
    requires FailedAfter(r, endpoint, w, env, |trail| - 1) == Some(trail[|trail| - 1])
    requires FailedAfter(r, endpoint, w, env, |trail|) == None
    requires Promised(r, endpoint, w, reply, log)
    requires Answers(r, endpoint, w, trail[|trail| - 1], env(|trail| - 1), reply)
    requires Contacts(r, endpoint, w, trail[|trail| - 1], env(|trail| - 1), log)
    ensures Delivered(r, endpoint, w, env, reply, log, trail)
  {
  }

  /** One turn of the loop. */
  method Turn(r: Router, endpoint: string, w: Wanted, env: nat -> Pass, pass: nat, failed: set<string>,
              before: seq<Action>, ghost trail: seq<set<string>>)
    returns (reply: Option<Reply>, log: seq<Action>, failed': set<string>)
    requires ValidRouter(r) && (w.family.Some? || !CanRetry(endpoint, w))
    requires |trail| == pass + 1 && AtPass(r, endpoint, w, env, failed, before, trail)
    ensures pass <= |Names(r.routes)|
    ensures reply.None? ==> AtPass(r, endpoint, w, env, failed', log, trail + [failed'])
    ensures reply.Some? ==> Delivered(r, endpoint, w, env, reply.value, log, trail)
  {
    reply, log, failed' := TryNext(r, endpoint, w, env, pass, failed, before);
    if reply.None? {
      TurnGoesOn(r, endpoint, w, env, failed', log, trail);
    } else {
      TurnEnds(r, endpoint, w, env, reply.value, log, trail);
    }
  }

  lemma AtStart(r: Router, endpoint: string, w: Wanted, env: nat -> Pass)
    ensures AtPass(r, endpoint, w, env, {}, [], [{}])
  {
    StartPending(r, endpoint, w);
  }

  /** One request. The loop ends because every retry excludes one more route. No endpoint is contacted
      twice; every contact records exactly one outcome with its breaker, bar the last one if another
      exception propagates from it; and on every exit the governor's counters are back where they were.
      Only a refused explicit choice records a breaker failure without any contact. Every pass but the
      last failed in a way that may be retried with another route left; the last one decides the reply. */
  method Forward(r: Router, endpoint: string, w: Wanted, env: nat -> Pass)
    returns (reply: Reply, log: seq<Action>)
    requires ValidRouter(r) && (w.family.Some? || !CanRetry(endpoint, w))
    ensures Promised(r, endpoint, w, reply, log)
    ensures exists trail :: Delivered(r, endpoint, w, env, reply, log, trail)
  {
    var failed: set<string> := {};
    var pass: nat := 0;
    log := [];
    ghost var trail: seq<set<string>> := [{}];
    AtStart(r, endpoint, w, env);
    while true
      invariant |trail| == pass + 1
      invariant AtPass(r, endpoint, w, env, failed, log, trail)
      decreases |Names(r.routes)| + 1 - pass
    {
      var answer;
      answer, log, failed := Turn(r, endpoint, w, env, pass, failed, log, trail);
      if answer.Some? {
        return answer.value, log;
      }
      trail := trail + [failed];
      pass := pass + 1;
    }
  }

  // ----- Streaming -----

  /** What the response stream does later: contact, possibly an outcome, and its own release. A client
      that disconnects leaves no outcome. */
  function StreamTail(name: string, outcome: seq<Action>): seq<Action> {
    [Contacted(name)] + outcome + [Released(name)]
  }

  predicate StreamOutcome(name: string, outcome: seq<Action>) {
    outcome == [] || outcome == [Succeeded(name)] || outcome == [FailedAt(name)]
  }

  lemma {:induction false} ReplayNatural(log: seq<Action>, name: string, count: int)
    requires count >= 0
    ensures Replay(log, name, count) >= 0
    decreases |log|
  {
    if log != [] {
      ReplayNatural(log[1..], name, Effect(log[0], name, count));
    }
  }

  /** The stream's own tail only releases. */
  lemma TailReleases(name: string, outcome: seq<Action>, count: int)
    requires StreamOutcome(name, outcome)
    ensures Replay(StreamTail(name, outcome), name, count) == Max(0, count - 1)
  {
    ReplayConcat([Contacted(name)] + outcome, [Released(name)] + [], name, count);
    ReplayCons(Contacted(name), outcome, name, count);
    ReplayCons(Released(name), [], name, count);
    if outcome != [] {
      assert outcome == [outcome[0]] + [];
      ReplayCons(outcome[0], [], name, count);
    }
    assert [Released(name)] + [] == [Released(name)];
  }

  /** A streamed request gives its slot back before the stream starts and again when the stream ends,
      whatever other requests do in between (`mid`). The endpoint's counter then shows what the others
      account for exactly when, at the end of the stream, none of them holds a slot there; otherwise
      it shows one too few. */
  lemma StreamingReleasesTwice(name: string, mid: seq<Action>, outcome: seq<Action>, count: int)
    requires StreamOutcome(name, outcome) && count >= 0
    ensures var whole := [Acquired(name), Released(name)] + mid + StreamTail(name, outcome);
      var others := Replay(mid, name, count);
      && Replay(whole, name, count) == Max(0, others - 1)
      && (Replay(whole, name, count) == others <==> others == 0)
  {
    var head, tail := [Acquired(name), Released(name)], StreamTail(name, outcome);
    StreamNeutral(name);
    ReplayConcat(head, mid, name, count);
    ReplayConcat(head + mid, tail, name, count);
    ReplayNatural(mid, name, count);
    TailReleases(name, outcome, Replay(mid, name, count));
  }

  /** Two releases for one acquire. */
  lemma StreamUnbalanced(name: string, outcome: seq<Action>)
    requires StreamOutcome(name, outcome)
    ensures var own := [Acquired(name), Released(name)] + StreamTail(name, outcome);
      Times(own, Released(name)) == Times(own, Acquired(name)) + 1
  {
    var head, tail := [Acquired(name), Released(name)], StreamTail(name, outcome);
    assert multiset(head + tail) == multiset(head) + multiset(tail);
    assert multiset(outcome)[Released(name)] == 0 && multiset(outcome)[Acquired(name)] == 0;
  }
}
