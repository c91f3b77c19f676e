/** The policy as a whole: limits in range, more pressure never gives more, budgets ordered by class. */
module PolicyTheorems {
  import opened Common
  import opened HostMemory
  import opened Policy

  /** Foreground limits stay between 1 and the configured maximum; background limits stay below it
      and are zero exactly while yielding. */
  predicate InRange(c: Config, l: Limits, yielding: bool) {
    && 1 <= l.foreground <= c.maxForeground && 1 <= l.endpointForeground <= c.maxEndpointForeground
    && 0 <= l.background <= c.maxBackground && 0 <= l.endpointBackground <= c.maxEndpointBackground
    && (l.background == 0 <==> yielding) && (l.endpointBackground == 0 <==> yielding)
  }

  lemma LimitsInRange(c: Config, s: SystemState, swap: bool, thermal: bool, open: nat)
    requires ValidConfig(c)
    ensures InRange(c, LimitsFor(c, s, swap, thermal, open), s.Yielding?)
  {
    var a := StateStage(ConfiguredLimits(c), s);
    assert InRange(c, a, s.Yielding?);
    var b := SwapStage(a, s.Yielding?, swap);
    assert InRange(c, b, s.Yielding?);
    var d := ThermalStage(b, s.Yielding?, thermal);
    assert InRange(c, d, s.Yielding?);
  }

  /** Every report carries limits in range, and its background limits are zero exactly when it yields. */
  lemma ReportLimitsInRange(c: Config, t: Option<Telemetry>, open: nat)
    requires ValidConfig(c)
    ensures var r := ReportFor(c, t, open); InRange(c, r.limits, r.yieldActive)
  {
    match t
    case None => LimitsInRange(c, Normal, false, false, open);
    case Some(t) =>
      var g := SignalsOf(c, t);
      LimitsInRange(c, StateFor(g.yielding, TotalPenalty(Rules(g))), g.swap, g.thermal != 0, open);
  }

  // ----- More pressure never gives more -----

  predicate LimitsLe(a: Limits, b: Limits) {
    && a.foreground <= b.foreground && a.background <= b.background
    && a.endpointForeground <= b.endpointForeground && a.endpointBackground <= b.endpointBackground
  }

  function Rank(s: SystemState): nat {
    match s
    case Normal => 0
    case Recovering => 1
    case Pressured => 2
    case Yielding => 3
  }

  lemma StateStageFalls(c: Config, s: SystemState, s': SystemState)
    requires ValidConfig(c) && Rank(s) <= Rank(s')
    ensures LimitsLe(StateStage(ConfiguredLimits(c), s'), StateStage(ConfiguredLimits(c), s))
  {
  }

  predicate Floored(l: Limits, yielding: bool) {
    && 1 <= l.foreground && 1 <= l.endpointForeground
    && BackgroundFloor(yielding) <= l.background && BackgroundFloor(yielding) <= l.endpointBackground
    && (yielding ==> l.background == 0 && l.endpointBackground == 0)
  }

  lemma SwapStageFalls(a: Limits, b: Limits, y: bool, y': bool, swap: bool, swap': bool)
    requires Floored(a, y) && Floored(b, y') && LimitsLe(b, a) && (y ==> y') && (swap ==> swap')
    ensures LimitsLe(SwapStage(b, y', swap'), SwapStage(a, y, swap))
    ensures Floored(SwapStage(a, y, swap), y)
  {
  }

  lemma ThermalStageFalls(a: Limits, b: Limits, y: bool, y': bool, thermal: bool, thermal': bool)
    requires Floored(a, y) && Floored(b, y') && LimitsLe(b, a) && (y ==> y') && (thermal ==> thermal')
    ensures LimitsLe(ThermalStage(b, y', thermal'), ThermalStage(a, y, thermal))
    ensures Floored(ThermalStage(a, y, thermal), y)
  {
  }

  lemma BreakerStageFalls(a: Limits, b: Limits, y: bool, y': bool, open: nat, open': nat)
    requires Floored(a, y) && Floored(b, y') && LimitsLe(b, a) && (y ==> y') && open <= open'
    ensures LimitsLe(BreakerStage(b, y', open'), BreakerStage(a, y, open))
  {
  }

  lemma LimitsFall(c: Config, s: SystemState, s': SystemState,
                   swap: bool, swap': bool, thermal: bool, thermal': bool, open: nat, open': nat)
    requires ValidConfig(c)
    requires Rank(s) <= Rank(s') && (swap ==> swap') && (thermal ==> thermal') && open <= open'
    ensures LimitsLe(LimitsFor(c, s', swap', thermal', open'), LimitsFor(c, s, swap, thermal, open))
  {
    var y, y' := s.Yielding?, s'.Yielding?;
    var a, b := StateStage(ConfiguredLimits(c), s), StateStage(ConfiguredLimits(c), s');
    StateStageFalls(c, s, s');
    SwapStageFalls(a, b, y, y', swap, swap');
    SwapStageFalls(b, b, y', y', swap', swap');
    var a1, b1 := SwapStage(a, y, swap), SwapStage(b, y', swap');
    ThermalStageFalls(a1, b1, y, y', thermal, thermal');
    ThermalStageFalls(b1, b1, y', y', thermal', thermal');
    BreakerStageFalls(ThermalStage(a1, y, thermal), ThermalStage(b1, y', thermal'), y, y', open, open');
  }

  function Severity(t: Thermal): nat {
    match t
    case Unknown => 0
    case Cool => 0
    case Warm => 1
    case Hot => 2
    case Critical => 3
  }

  /** The same host under at least as much pressure in every component. */
  predicate Worse(t: Telemetry, t': Telemetry) {
    && t'.ramTotalBytes == t.ramTotalBytes && t.ramUsed <= t'.ramUsed && t.cpu <= t'.cpu && t.swap <= t'.swap
    && Severity(t.thermal) <= Severity(t'.thermal) && HeavyMb(t) <= HeavyMb(t')
  }

  predicate SignalsLe(g: Signals, g': Signals) {
    && (g.small ==> g'.small) && (g.yielding ==> g'.yielding) && (g.elevated ==> g'.elevated)
    && (g.cpu ==> g'.cpu) && (g.swap ==> g'.swap) && 0 <= g.thermal <= g'.thermal && (g.heavy ==> g'.heavy)
  }

  lemma SignalsRise(c: Config, t: Telemetry, t': Telemetry)
    requires Worse(t, t')
    ensures SignalsLe(SignalsOf(c, t), SignalsOf(c, t'))
  {
    assert HeavyProcessMb(t.ramTotalBytes) >= 512.0;
    assert t'.heavy == [] ==> HeavyMb(t') == 0.0;
  }

  function Amount(on: bool, n: int): int {
    if on then n else 0
  }

  function RamAmount(g: Signals): int {
    if g.yielding then 55 else Amount(g.elevated, 25)
  }

  /** The penalty in closed form. */
  lemma PenaltyIs(g: Signals)
    ensures TotalPenalty(Rules(g)) == Amount(g.small, 25) + RamAmount(g) + Amount(g.cpu, 15)
                                      + Amount(g.swap, 20) + g.thermal + Amount(g.heavy, 10)
  {
    var r := Rules(g);
    assert r[..6] == r;
    SumTo(r, 6); SumTo(r, 5); SumTo(r, 4); SumTo(r, 3); SumTo(r, 2); SumTo(r, 1);
  }

  lemma SumTo(r: seq<Rule>, n: nat)
    requires 0 < n <= |r|
    ensures TotalPenalty(r[..n]) == TotalPenalty(r[..n - 1]) + r[n - 1].penalty
  {
    assert r[..n][..n - 1] == r[..n - 1];
  }

  lemma StateRisesWith(g: Signals, g': Signals)
    requires SignalsLe(g, g')
    ensures var p, p' := TotalPenalty(Rules(g)), TotalPenalty(Rules(g'));
      p <= p' && Rank(StateFor(g.yielding, p)) <= Rank(StateFor(g'.yielding, p'))
  {
    PenaltyIs(g);
    PenaltyIs(g');
  }

  /** The part of a report that follows from the threshold tests alone. */
  lemma SignalsDecide(c: Config, g: Signals, g': Signals, open: nat, open': nat)
    requires ValidConfig(c) && SignalsLe(g, g') && open <= open'
    ensures var p, p' := TotalPenalty(Rules(g)), TotalPenalty(Rules(g'));
      && JuiceFor(c, p') <= JuiceFor(c, p)
      && LimitsLe(LimitsFor(c, StateFor(g'.yielding, p'), g'.swap, g'.thermal != 0, open'),
                  LimitsFor(c, StateFor(g.yielding, p), g.swap, g.thermal != 0, open))
  {
    StateRisesWith(g, g');
    LimitsFall(c, StateFor(g.yielding, TotalPenalty(Rules(g))), StateFor(g'.yielding, TotalPenalty(Rules(g'))),
               g.swap, g'.swap, g.thermal != 0, g'.thermal != 0, open, open');
  }

  /** Telemetry worse in every component, with no fewer open breakers, never raises the juice level or
      any of the four concurrency limits. */
  lemma MorePressureNeverGivesMore(c: Config, t: Telemetry, t': Telemetry, open: nat, open': nat)
    requires ValidConfig(c) && Worse(t, t') && open <= open'
    ensures var r, r' := ReportFor(c, Some(t), open), ReportFor(c, Some(t'), open');
      r'.juice <= r.juice && LimitsLe(r'.limits, r.limits) && r'.scale == r.scale
  {
    SignalsRise(c, t, t');
    SignalsDecide(c, SignalsOf(c, t), SignalsOf(c, t'), open, open');
  }

  lemma Scaled(a: real, b: real, k: real)
    requires a <= b && k >= 0.0
    ensures a * k <= b * k
  {
  }

  lemma FloorMonotone(x: real, y: real)
    requires x <= y
    ensures x.Floor <= y.Floor
  {
  }

  lemma TokensRise(n: int, f: real, f': real)
    requires 0 <= n && f <= f'
    ensures Tokens(n, f) <= Tokens(n, f')
  {
    Scaled(f, f', n as real);
    FloorMonotone(n as real * f, n as real * f');
  }

  lemma RoundMonotone(x: real, y: real)
    requires x <= y
    ensures RoundHalfEven(x) <= RoundHalfEven(y)
  {
    FloorMonotone(x, y);
  }

  predicate BudgetLe(a: Budget, b: Budget) {
    && a.juice <= b.juice && a.contextTokens <= b.contextTokens
    && a.outputTokens <= b.outputTokens && a.concurrency <= b.concurrency
  }

  lemma FractionRises(r: Report, r': Report)
    requires r.juice <= r'.juice && r.scale == r'.scale && r.scale >= 0.0
    ensures Fraction(r) <= Fraction(r')
  {
    Scaled(r.juice as real / 100.0, r'.juice as real / 100.0, r.scale);
  }

  lemma BackgroundBudgetRises(c: Config, k: RequestClass, r: Report, r': Report)
    requires ValidConfig(c) && !k.UserPrompt?
    requires r.juice <= r'.juice && r.scale == r'.scale && r.scale >= 0.0
    ensures BudgetLe(BudgetFor(c, k, r), BudgetFor(c, k, r'))
  {
    FractionRises(r, r');
    BudgetRises(c, r.juice, r'.juice, Fraction(r), Fraction(r'));
  }

  lemma BudgetRises(c: Config, juice: int, juice': int, f: real, f': real)
    requires ValidConfig(c) && juice <= juice' && f <= f'
    ensures BudgetLe(BackgroundBudget(c, juice, f), BackgroundBudget(c, juice', f'))
  {
    TokensRise(c.baseContextTokens, f, f');
    TokensRise(c.baseOutputTokens, f, f');
    RoundMonotone(3.0 * f, 3.0 * f');
  }

  /** The same holds end to end for the budgets of background and unknown requests. */
  lemma MorePressureNeverBudgetsMore(c: Config, k: RequestClass, t: Telemetry, t': Telemetry, open: nat, open': nat)
    requires ValidConfig(c) && Worse(t, t') && open <= open' && !k.UserPrompt?
    ensures BudgetLe(BudgetFor(c, k, ReportFor(c, Some(t'), open')), BudgetFor(c, k, ReportFor(c, Some(t), open)))
  {
    MorePressureNeverGivesMore(c, t, t', open, open');
    BackgroundBudgetRises(c, k, ReportFor(c, Some(t'), open'), ReportFor(c, Some(t), open));
  }

  lemma JuiceInRange(c: Config, t: Option<Telemetry>, open: nat)
    requires ValidConfig(c)
    ensures var r := ReportFor(c, t, open); 1 <= r.juice <= 100 && 0.5 <= r.scale <= 1.0
  {
    match t
    case None =>
    case Some(t) => PenaltyIs(SignalsOf(c, t));
  }

  /** n tokens are the whole part of a share of the base, but at least the floor. */
  predicate IsShare(n: int, base: int, share: real, floor: int) {
    n >= floor && (n as real <= base as real * share < n as real + 1.0
                   || (n == floor && base as real * share < floor as real))
  }

  lemma ShareOf(base: int, share: real, floor: int)
    ensures IsShare(Max(floor, Tokens(base, share)), base, share, floor)
  {
  }

  lemma BackgroundIs(c: Config, juice: int, share: real)
    requires ValidConfig(c) && 1 <= juice <= 100
    ensures var b := BackgroundBudget(c, juice, share);
      && b.juice == juice && 1 <= b.concurrency <= c.maxBackground
      && IsShare(b.contextTokens, c.baseContextTokens, share, 512)
      && IsShare(b.outputTokens, c.baseOutputTokens, share, 32)
      && (1 < b.concurrency < c.maxBackground ==> -0.5 <= b.concurrency as real - 3.0 * share <= 0.5)
  {
    ShareOf(c.baseContextTokens, share, 512);
    ShareOf(c.baseOutputTokens, share, 32);
  }

  lemma ForegroundIs(c: Config, scale: real)
    requires ValidConfig(c)
    ensures var b := ForegroundBudget(c, scale);
      && b.juice == c.foregroundJuice && b.concurrency == c.maxForeground
      && IsShare(b.contextTokens, c.baseContextTokens, scale, 512)
      && IsShare(b.outputTokens, c.baseOutputTokens, scale, 32)
  {
    ShareOf(c.baseContextTokens, scale, 512);
    ShareOf(c.baseOutputTokens, scale, 32);
  }

  /** The share of the base tokens a class gets. */
  function ShareFor(k: RequestClass, juice: int, scale: real): real {
    if k == UserPrompt then scale
    else if juice as real / 100.0 * scale < 0.05 then 0.05
    else juice as real / 100.0 * scale
  }

  /** Budgets in numbers. A prompt gets its own juice and the memory share of the base tokens. Other work
      gets the report's juice and that juice's percentage of the memory share, at least 5 percent, and
      as many parallel requests as thirds of that share, to the nearest number, between one and the
      background maximum. */
  lemma BudgetIs(c: Config, k: RequestClass, t: Option<Telemetry>, open: nat)
    requires ValidConfig(c)
    ensures var r := ReportFor(c, t, open); var b := BudgetFor(c, k, r);
      var share := ShareFor(k, r.juice, r.scale);
      && b.juice == (if k == UserPrompt then c.foregroundJuice else r.juice)
      && IsShare(b.contextTokens, c.baseContextTokens, share, 512)
      && IsShare(b.outputTokens, c.baseOutputTokens, share, 32)
      && (k == UserPrompt ==> b.concurrency == c.maxForeground)
      && (k != UserPrompt ==> 1 <= b.concurrency <= c.maxBackground)
      && (k != UserPrompt && 1 < b.concurrency < c.maxBackground ==>
            -0.5 <= b.concurrency as real - 3.0 * share <= 0.5)
  {
    JuiceInRange(c, t, open);
    var r := ReportFor(c, t, open);
    if k == UserPrompt {
      ForegroundIs(c, r.scale);
    } else {
      BackgroundIs(c, r.juice, ShareFor(k, r.juice, r.scale));
      assert Fraction(r) == ShareFor(k, r.juice, r.scale);
    }
  }

  /** Within one report no other class gets more tokens than a foreground prompt. */
  lemma ForegroundTokensDominate(c: Config, k: RequestClass, t: Option<Telemetry>, open: nat)
    requires ValidConfig(c)
    ensures var r := ReportFor(c, t, open);
      && BudgetFor(c, k, r).contextTokens <= BudgetFor(c, UserPrompt, r).contextTokens
      && BudgetFor(c, k, r).outputTokens <= BudgetFor(c, UserPrompt, r).outputTokens
  {
    JuiceInRange(c, t, open);
    TokensDominate(c, k, ReportFor(c, t, open));
  }

  lemma TokensDominate(c: Config, k: RequestClass, r: Report)
    requires ValidConfig(c) && 1 <= r.juice <= 100 && 0.5 <= r.scale <= 1.0
    ensures BudgetFor(c, k, r).contextTokens <= BudgetFor(c, UserPrompt, r).contextTokens
    ensures BudgetFor(c, k, r).outputTokens <= BudgetFor(c, UserPrompt, r).outputTokens
  {
    FractionBelowScale(r);
    TokensRise(c.baseContextTokens, Fraction(r), r.scale);
    TokensRise(c.baseOutputTokens, Fraction(r), r.scale);
  }

  lemma FractionBelowScale(r: Report)
    requires 1 <= r.juice <= 100 && 0.5 <= r.scale <= 1.0
    ensures Fraction(r) <= r.scale
  {
    var q := r.juice as real / 100.0;
    Scaled(q, 1.0, r.scale);
    assert q * r.scale <= 1.0 * r.scale == r.scale;
    assert Fraction(r) == RMax(0.05, q * r.scale);
  }
}
