/** Admission control: a cascade over the policy report and the queue length. */
module Admission {
  import opened Common
  import opened HostMemory
  import opened Policy
  import opened PolicyTheorems
  import opened Requests

  datatype Metadata = Metadata(class_: RequestClass, priority: Priority, estimatedTokens: Option<int>)

  datatype DecisionKind = Allow | Throttle | Yield | Reject

  datatype Decision = Decision(
    kind: DecisionKind, priority: Priority, budget: Budget, retryAfter: bool, queuePosition: Option<nat>)

  predicate TooLarge(m: Metadata, b: Budget) {
    m.class_.BackgroundRequest? && m.estimatedTokens.Some? && m.estimatedTokens.value > b.contextTokens
  }

  function Decide(c: Config, maxQueue: nat, m: Metadata, r: Report, queueSize: nat): Decision {
    var b := BudgetFor(c, m.class_, r);
    if m.class_.UserPrompt? then Decision(Allow, m.priority, b, false, None)
    else if queueSize >= maxQueue then Decision(Reject, m.priority, b, true, None)
    else if r.yieldActive then Decision(Yield, m.priority, b, true, Some(queueSize + 1))
    else if r.state.Pressured? || r.state.Recovering? || TooLarge(m, b) then
      Decision(Throttle, Background, b, false, Some(queueSize + 1))
    else Decision(Allow, m.priority, b, false, None)
  }

  /** What each decision means: prompts are always allowed, as they are; other work is rejected exactly when
      the queue is full, else put off exactly when RAM is at its yield threshold, else throttled, as
      background work, exactly when the host is pressured or recovering or a background request does
      not fit its context budget, and allowed otherwise. */
  lemma DecisionMeans(c: Config, maxQueue: nat, m: Metadata, t: Telemetry, open: nat, queueSize: nat)
    requires ValidConfig(c)
    ensures var r := ReportFor(c, Some(t), open); var d := Decide(c, maxQueue, m, r, queueSize);
      var others := m.class_ != UserPrompt;
      var atYield := t.ramUsed >= DynamicYield(t.ramTotalBytes, c.ramYield);
      var tight := r.state == Pressured || r.state == Recovering
        || (m.class_ == BackgroundRequest && m.estimatedTokens.Some?
            && m.estimatedTokens.value > d.budget.contextTokens);
      && (d.kind == Reject <==> others && queueSize >= maxQueue)
      && (d.kind == Yield <==> others && queueSize < maxQueue && atYield)
      && (d.kind == Throttle <==> others && queueSize < maxQueue && !atYield && tight)
      && (d.kind == Allow <==> !others || (queueSize < maxQueue && !atYield && !tight))
      && d.priority == (if d.kind == Throttle then Background else m.priority)
      && d.queuePosition == (if d.kind == Yield || d.kind == Throttle then Some(queueSize + 1) else None)
      && (d.retryAfter <==> d.kind == Reject || d.kind == Yield)
      && d.budget == BudgetFor(c, m.class_, r)
  {
    ReportIsExplained(c, t, open);
  }

  predicate Admits(k: DecisionKind) {
    k.Allow? || k.Throttle?
  }

  /** Whatever is admitted outside the foreground finds positive background limits in the report
      that admitted it; whatever the report's yield turns away would have found zero ones. */
  lemma AdmittedBackgroundHasRoom(
    c: Config, maxQueue: nat, m: Metadata, t: Option<Telemetry>, open: nat, queueSize: nat)
    requires ValidConfig(c) && !m.class_.UserPrompt?
    ensures var r := ReportFor(c, t, open); var d := Decide(c, maxQueue, m, r, queueSize);
      && (Admits(d.kind) ==> r.limits.background > 0 && r.limits.endpointBackground > 0)
      && (d.kind.Yield? ==> r.limits.background == 0 && r.limits.endpointBackground == 0)
  {
    ReportLimitsInRange(c, t, open);
  }

  function Strictness(k: DecisionKind): nat {
    match k
    case Allow => 0
    case Throttle => 1
    case Yield => 2
    case Reject => 3
  }

  lemma StateRises(c: Config, t: Telemetry, t': Telemetry, open: nat, open': nat)
    requires Worse(t, t')
    ensures var r, r' := ReportFor(c, Some(t), open), ReportFor(c, Some(t'), open');
      Rank(r.state) <= Rank(r'.state) && (r.yieldActive ==> r'.yieldActive)
  {
    var g, g' := SignalsOf(c, t), SignalsOf(c, t');
    SignalsRise(c, t, t');
    PenaltyIs(g);
    PenaltyIs(g');
  }

  /** End to end: with the queue as it is, worse telemetry and more open breakers never turn a decision
      into a more permissive one. */
  lemma AdmissionNeverRelaxes(
    c: Config, maxQueue: nat, m: Metadata, t: Telemetry, t': Telemetry, open: nat, open': nat, queueSize: nat)
    requires ValidConfig(c) && Worse(t, t') && open <= open'
    ensures Strictness(Decide(c, maxQueue, m, ReportFor(c, Some(t), open), queueSize).kind)
         <= Strictness(Decide(c, maxQueue, m, ReportFor(c, Some(t'), open'), queueSize).kind)
  {
    StateRises(c, t, t', open, open');
    if !m.class_.UserPrompt? {
      MorePressureNeverBudgetsMore(c, m.class_, t, t', open, open');
      StricterDecision(c, maxQueue, m, ReportFor(c, Some(t), open), ReportFor(c, Some(t'), open'), queueSize);
    }
  }

  lemma StricterDecision(c: Config, maxQueue: nat, m: Metadata, r: Report, r': Report, queueSize: nat)
    requires Rank(r.state) <= Rank(r'.state) && (r.yieldActive ==> r'.yieldActive)
    requires r'.state.Yielding? ==> r'.yieldActive
    requires BudgetLe(BudgetFor(c, m.class_, r'), BudgetFor(c, m.class_, r))
    ensures Strictness(Decide(c, maxQueue, m, r, queueSize).kind)
         <= Strictness(Decide(c, maxQueue, m, r', queueSize).kind)
  {
  }
}
