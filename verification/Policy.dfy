/**
 The juice policy: pressure rules, penalties, budgets and concurrency limits. Percentages and
 sizes are reals, so floating-point rounding is not modelled; reason texts are not either.
 */
module Policy {
  import opened Common
  import opened HostMemory

  datatype Config = Config(
    ramYield: real, ramRecover: real, recoverGap: real, minimumRamGb: real,
    cpuPressure: real, swapPressure: real,
    foregroundJuice: int, backgroundBaseJuice: int, minimumBackgroundJuice: int,
    baseContextTokens: int, baseOutputTokens: int,
    maxForeground: int, maxBackground: int,
    maxEndpointForeground: int, maxEndpointBackground: int)

  /** The field bounds of the configuration model. */
  predicate ValidConfig(c: Config) {
    && 50.0 <= c.ramYield <= 99.0 && 30.0 <= c.ramRecover <= 98.0 && c.ramRecover < c.ramYield
    && 2.0 <= c.recoverGap <= 30.0 && 2.0 <= c.minimumRamGb <= 64.0
    && 10.0 <= c.cpuPressure <= 100.0 && 0.0 <= c.swapPressure <= 100.0
    && 1 <= c.foregroundJuice <= 100 && 1 <= c.backgroundBaseJuice <= 100
    && 1 <= c.minimumBackgroundJuice <= 100
    && 512 <= c.baseContextTokens <= 262144 && 32 <= c.baseOutputTokens <= 32768
    && 1 <= c.maxForeground <= 64 && 1 <= c.maxBackground <= 32
    && 1 <= c.maxEndpointForeground <= 32 && 1 <= c.maxEndpointBackground <= 32
  }

  datatype Thermal = Unknown | Cool | Warm | Hot | Critical

  /** `heavy` lists the resident megabytes of the heavy processes found, largest first. */
  datatype Telemetry = Telemetry(
    ramTotalBytes: int, ramUsed: real, cpu: real, swap: real, thermal: Thermal, heavy: seq<real>)

  datatype SystemState = Normal | Recovering | Pressured | Yielding

  datatype RuleName =
    | TelemetryRule | MemoryCapacity | RamYield | RamRecover | RamPressure
    | CpuPressure | SwapPressure | ThermalPressure | HeavyProcessPressure

  datatype Rule = Rule(name: RuleName, triggered: bool, penalty: int)

  datatype Limits = Limits(foreground: int, background: int, endpointForeground: int, endpointBackground: int)

  datatype Report = Report(
    state: SystemState, juice: int, yieldActive: bool,
    yieldPercent: real, recoverPercent: real, scale: real,
    rules: seq<Rule>, limits: Limits)

  // ----- Pressure rules -----

  /** A rule contributes its penalty only when triggered. */
  function MakeRule(name: RuleName, triggered: bool, penalty: int): Rule {
    Rule(name, triggered, if triggered then penalty else 0)
  }

  function ThermalPenalty(t: Thermal): int {
    match t
    case Critical => 45
    case Hot => 30
    case Warm => 10
    case _ => 0
  }

  function SumFirst(s: seq<real>, n: nat): real {
    if n == 0 || s == [] then 0.0 else s[0] + SumFirst(s[1..], n - 1)
  }

  function HeavyMb(t: Telemetry): real {
    SumFirst(t.heavy, 5)
  }

  function YieldPercent(c: Config, t: Telemetry): real {
    DynamicYield(t.ramTotalBytes, c.ramYield)
  }

  function RecoverPercent(c: Config, t: Telemetry): real {
    DynamicRecover(t.ramTotalBytes, c.ramRecover, c.recoverGap, c.ramYield)
  }

  predicate YieldsOn(c: Config, t: Telemetry) {
    t.ramUsed >= YieldPercent(c, t)
  }

  /** The threshold tests of one evaluation. */
  datatype Signals = Signals(
    small: bool, yielding: bool, elevated: bool, cpu: bool, swap: bool, thermal: int, heavy: bool)

  function SignalsOf(c: Config, t: Telemetry): Signals {
    Signals(TotalGb(t.ramTotalBytes) < c.minimumRamGb,
            YieldsOn(c, t),
            t.ramUsed >= RecoverPercent(c, t),
            t.cpu >= c.cpuPressure,
            t.swap >= c.swapPressure,
            ThermalPenalty(t.thermal),
            t.heavy != [] && HeavyMb(t) >= HeavyProcessMb(t.ramTotalBytes))
  }

  function RamRule(g: Signals): Rule {
    if g.yielding then MakeRule(RamYield, true, 55)
    else if g.elevated then MakeRule(RamRecover, true, 25)
    else MakeRule(RamPressure, false, 0)
  }

  function LoadRules(g: Signals): seq<Rule> {
    [ MakeRule(CpuPressure, g.cpu, 15),
      MakeRule(SwapPressure, g.swap, 20),
      MakeRule(ThermalPressure, g.thermal != 0, g.thermal),
      MakeRule(HeavyProcessPressure, g.heavy, 10) ]
  }

  /** The rule events of one evaluation, in the order they are traced. */
  function Rules(g: Signals): seq<Rule> {
    [MakeRule(MemoryCapacity, g.small, 25), RamRule(g)] + LoadRules(g)
  }

  function TotalPenalty(rules: seq<Rule>): int {
    if rules == [] then 0 else TotalPenalty(rules[..|rules| - 1]) + rules[|rules| - 1].penalty
  }

  predicate Triggered(rules: seq<Rule>, name: RuleName) {
    exists k :: 0 <= k < |rules| && rules[k].name == name && rules[k].triggered
  }

  function StateFor(yielding: bool, penalty: int): SystemState {
    if yielding then Yielding
    else if penalty >= 30 then Pressured
    else if penalty > 0 then Recovering
    else Normal
  }

  function JuiceFor(c: Config, penalty: int): int {
    Max(c.minimumBackgroundJuice, c.backgroundBaseJuice - penalty)
  }

  // ----- Concurrency limits, stage by stage -----

  function ConfiguredLimits(c: Config): Limits {
    Limits(c.maxForeground, c.maxBackground, c.maxEndpointForeground, c.maxEndpointBackground)
  }

  function StateStage(l: Limits, s: SystemState): Limits {
    match s
    case Yielding =>
      Limits(Max(1, l.foreground / 2), 0, Max(1, l.endpointForeground / 2), 0)
    case Pressured =>
      Limits(Max(1, l.foreground * 3 / 4), Max(1, l.background / 2),
             Max(1, l.endpointForeground * 3 / 4), Max(1, l.endpointBackground / 2))
    case Recovering =>
      l.(background := Max(1, l.background * 3 / 4), endpointBackground := Max(1, l.endpointBackground * 3 / 4))
    case Normal => l
  }

  function BackgroundFloor(yielding: bool): int {
    if yielding then 0 else 1
  }

  function SwapStage(l: Limits, yielding: bool, swap: bool): Limits {
    if !swap then l
    else l.(background := Max(BackgroundFloor(yielding), l.background / 2),
            endpointBackground := Max(BackgroundFloor(yielding), l.endpointBackground / 2))
  }

  function ThermalStage(l: Limits, yielding: bool, thermal: bool): Limits {
    if !thermal then l
    else Limits(Max(1, l.foreground - 1), Max(BackgroundFloor(yielding), l.background - 1),
                Max(1, l.endpointForeground - 1), Max(BackgroundFloor(yielding), l.endpointBackground - 1))
  }

  function BreakerStage(l: Limits, yielding: bool, open: nat): Limits {
    if open == 0 then l
    else l.(endpointForeground := Max(1, l.endpointForeground - open),
            endpointBackground := Max(BackgroundFloor(yielding), l.endpointBackground - open))
  }

  /** What decides the limits: system state, swap and thermal triggers, open breakers. */
  function LimitsFor(c: Config, s: SystemState, swap: bool, thermal: bool, open: nat): Limits {
    var y := s.Yielding?;
    BreakerStage(ThermalStage(SwapStage(StateStage(ConfiguredLimits(c), s), y, swap), y, thermal), y, open)
  }

  // ----- Evaluation -----

  function ReportFor(c: Config, t: Option<Telemetry>, open: nat): Report {
    match t
    case None =>
      var rules := [Rule(TelemetryRule, false, 0)];
      Report(Normal, c.backgroundBaseJuice, false, c.ramYield, c.ramRecover, 1.0, rules,
             LimitsFor(c, Normal, false, false, open))
    case Some(t) =>
      var g := SignalsOf(c, t);
      var p := TotalPenalty(Rules(g));
      var s := StateFor(g.yielding, p);
      Report(s, JuiceFor(c, p), g.yielding, YieldPercent(c, t), RecoverPercent(c, t),
             BudgetScale(t.ramTotalBytes), Rules(g), LimitsFor(c, s, g.swap, g.thermal != 0, open))
  }

  // ----- The report, told in the fields of telemetry and configuration -----

  /** A rule event: named, triggered or not, and worth its penalty only when triggered. */
  predicate Traced(r: Rule, name: RuleName, triggered: bool, penalty: int) {
    r.name == name && r.triggered == triggered && r.penalty == if triggered then penalty else 0
  }

  predicate Heated(t: Telemetry) {
    t.thermal == Warm || t.thermal == Hot || t.thermal == Critical
  }

  function At(s: seq<real>, k: nat): real {
    if k < |s| then s[k] else 0.0
  }

  function FiveHeavy(t: Telemetry): real {
    At(t.heavy, 0) + At(t.heavy, 1) + At(t.heavy, 2) + At(t.heavy, 3) + At(t.heavy, 4)
  }

  /** Each measured value against its own threshold, in the order of the trace. */
  predicate TraceFits(c: Config, t: Telemetry, rules: seq<Rule>) {
    && |rules| == 6
    && Traced(rules[0], MemoryCapacity, t.ramTotalBytes as real / 1073741824.0 < c.minimumRamGb, 25)
    && (if t.ramUsed >= DynamicYield(t.ramTotalBytes, c.ramYield) then Traced(rules[1], RamYield, true, 55)
        else if t.ramUsed >= DynamicRecover(t.ramTotalBytes, c.ramRecover, c.recoverGap, c.ramYield) then
          Traced(rules[1], RamRecover, true, 25)
        else Traced(rules[1], RamPressure, false, 0))
    && Traced(rules[2], CpuPressure, t.cpu >= c.cpuPressure, 15)
    && Traced(rules[3], SwapPressure, t.swap >= c.swapPressure, 20)
    && Traced(rules[4], ThermalPressure, Heated(t),
              if t.thermal == Critical then 45 else if t.thermal == Hot then 30 else 10)
    && Traced(rules[5], HeavyProcessPressure,
              t.heavy != [] && FiveHeavy(t) >= 512.0
              && FiveHeavy(t) >= t.ramTotalBytes as real / 1073741824.0 * 81.92, 10)
  }

  function SumOfSix(rules: seq<Rule>): int
    requires |rules| == 6
  {
    rules[0].penalty + rules[1].penalty + rules[2].penalty + rules[3].penalty + rules[4].penalty + rules[5].penalty
  }

  /** Juice and state follow from the sum of the traced penalties and from RAM at its yield threshold. */
  predicate StateFits(c: Config, t: Telemetry, r: Report) {
    var atYield := t.ramUsed >= DynamicYield(t.ramTotalBytes, c.ramYield);
    && |r.rules| == 6
    && (if c.backgroundBaseJuice - SumOfSix(r.rules) >= c.minimumBackgroundJuice
        then r.juice == c.backgroundBaseJuice - SumOfSix(r.rules) else r.juice == c.minimumBackgroundJuice)
    && (r.state == Yielding <==> atYield) && r.yieldActive == atYield
    && (r.state == Pressured <==> !atYield && SumOfSix(r.rules) >= 30)
    && (r.state == Recovering <==> !atYield && 0 < SumOfSix(r.rules) < 30)
    && (r.state == Normal <==> !atYield && SumOfSix(r.rules) == 0)
  }

  function AtLeastOne(n: int): int {
    if n < 1 then 1 else n
  }

  /** A background maximum after the state and, halved again, after swap pressure. */
  function Halved(maximum: int, s: SystemState, swap: bool): int {
    var n := if s == Pressured then AtLeastOne(maximum / 2)
             else if s == Recovering then AtLeastOne(maximum * 3 / 4)
             else maximum;
    if swap then AtLeastOne(n / 2) else n
  }

  function Shrunk(maximum: int, s: SystemState): int {
    if s == Yielding then AtLeastOne(maximum / 2)
    else if s == Pressured then AtLeastOne(maximum * 3 / 4)
    else maximum
  }

  /** The four limits in numbers: no background slots while yielding; otherwise the shares above, one less
      under heat, and at the endpoints one less for every open breaker, but never below one. */
  predicate LimitsFit(c: Config, s: SystemState, swap: bool, heat: bool, open: nat, l: Limits) {
    var less := if heat then 1 else 0;
    && l.foreground == AtLeastOne(Shrunk(c.maxForeground, s) - less)
    && l.endpointForeground == AtLeastOne(Shrunk(c.maxEndpointForeground, s) - less - open)
    && l.background == (if s == Yielding then 0 else AtLeastOne(Halved(c.maxBackground, s, swap) - less))
    && l.endpointBackground
       == (if s == Yielding then 0 else AtLeastOne(Halved(c.maxEndpointBackground, s, swap) - less - open))
  }

  predicate Explained(c: Config, t: Telemetry, open: nat, r: Report) {
    && TraceFits(c, t, r.rules) && StateFits(c, t, r)
    && r.yieldPercent == DynamicYield(t.ramTotalBytes, c.ramYield)
    && r.recoverPercent == DynamicRecover(t.ramTotalBytes, c.ramRecover, c.recoverGap, c.ramYield)
    && r.scale == BudgetScale(t.ramTotalBytes)
    && LimitsFit(c, r.state, t.swap >= c.swapPressure, Heated(t), open, r.limits)
  }

  lemma TraceIs(c: Config, t: Telemetry)
    ensures TraceFits(c, t, Rules(SignalsOf(c, t)))
  {
    HeavyIsFirstFive(t);
  }

  lemma TotalIsSum(rules: seq<Rule>)
    requires |rules| == 6
    ensures TotalPenalty(rules) == SumOfSix(rules)
  {
    assert rules[..6] == rules && rules[..0] == [];
    TotalTo(rules, 6);
    TotalTo(rules, 5);
    TotalTo(rules, 4);
    TotalTo(rules, 3);
    TotalTo(rules, 2);
    TotalTo(rules, 1);
  }

  lemma TotalTo(rules: seq<Rule>, n: nat)
    requires 0 < n <= |rules|
    ensures TotalPenalty(rules[..n]) == TotalPenalty(rules[..n - 1]) + rules[n - 1].penalty
  {
    assert rules[..n][..n - 1] == rules[..n - 1];
  }

  lemma LimitsAre(c: Config, s: SystemState, swap: bool, heat: bool, open: nat)
    requires ValidConfig(c)
    ensures LimitsFit(c, s, swap, heat, open, LimitsFor(c, s, swap, heat, open))
  {
    var l := ThermalStage(SwapStage(StateStage(ConfiguredLimits(c), s), s.Yielding?, swap), s.Yielding?, heat);
    LimitsBeforeBreakers(c, s, swap, heat);
    assert BreakerStage(l, s.Yielding?, open) == LimitsFor(c, s, swap, heat, open);
  }

  lemma LimitsBeforeBreakers(c: Config, s: SystemState, swap: bool, heat: bool)
    requires ValidConfig(c)
    ensures LimitsFit(c, s, swap, heat, 0,
              ThermalStage(SwapStage(StateStage(ConfiguredLimits(c), s), s.Yielding?, swap), s.Yielding?, heat))
  {
    var a := StateStage(ConfiguredLimits(c), s);
    assert a.foreground == Shrunk(c.maxForeground, s) && a.endpointForeground == Shrunk(c.maxEndpointForeground, s);
    var b := SwapStage(a, s.Yielding?, swap);
    assert s != Yielding ==> b.background == Halved(c.maxBackground, s, swap)
                             && b.endpointBackground == Halved(c.maxEndpointBackground, s, swap);
  }

  lemma ReportIsExplained(c: Config, t: Telemetry, open: nat)
    requires ValidConfig(c)
    ensures Explained(c, t, open, ReportFor(c, Some(t), open))
  {
    var g := SignalsOf(c, t);
    var p := TotalPenalty(Rules(g));
    TraceIs(c, t);
    TotalIsSum(Rules(g));
    LimitsAre(c, StateFor(g.yielding, p), g.swap, g.thermal != 0, open);
  }

  lemma SumNext(s: seq<real>, k: nat, n: nat)
    requires n > 0
    ensures SumFirst(if k <= |s| then s[k..] else [], n)
         == At(s, k) + SumFirst(if k + 1 <= |s| then s[k + 1..] else [], n - 1)
  {
    if k < |s| {
      assert s[k..][1..] == s[k + 1..];
    }
  }

  /** The first five heavy processes count, or all of them if there are fewer. */
  lemma HeavyIsFirstFive(t: Telemetry)
    ensures HeavyMb(t) == FiveHeavy(t)
  {
    var s := t.heavy;
    assert s[0..] == s;
    SumNext(s, 0, 5);
    SumNext(s, 1, 4);
    SumNext(s, 2, 3);
    SumNext(s, 3, 2);
    SumNext(s, 4, 1);
  }

  lemma TotalSnoc(rules: seq<Rule>, r: Rule)
    ensures TotalPenalty(rules + [r]) == TotalPenalty(rules) + r.penalty
  {
    assert (rules + [r])[..|rules|] == rules;
  }

  /** Accumulates one rule: its penalty if triggered, and its event in the trace. */
  method Record(rules: seq<Rule>, penalty: int, name: RuleName, triggered: bool, amount: int)
    returns (rules': seq<Rule>, penalty': int)
    requires penalty == TotalPenalty(rules)
    ensures rules' == rules + [MakeRule(name, triggered, amount)] && penalty' == TotalPenalty(rules')
  {
    TotalSnoc(rules, MakeRule(name, triggered, amount));
    penalty' := penalty;
    if triggered {
      penalty' := penalty' + amount;
    }
    rules' := rules + [MakeRule(name, triggered, amount)];
  }

  method CollectMemoryRules(g: Signals) returns (rules: seq<Rule>, penalty: int)
    ensures rules == [MakeRule(MemoryCapacity, g.small, 25), RamRule(g)] && penalty == TotalPenalty(rules)
  {
    rules, penalty := Record([], 0, MemoryCapacity, g.small, 25);
    if g.yielding {
      rules, penalty := Record(rules, penalty, RamYield, true, 55);
    } else if g.elevated {
      rules, penalty := Record(rules, penalty, RamRecover, true, 25);
    } else {
      rules, penalty := Record(rules, penalty, RamPressure, false, 0);
    }
  }

  method CollectLoadRules(g: Signals, before: seq<Rule>, start: int) returns (rules: seq<Rule>, penalty: int)
    requires start == TotalPenalty(before)
    ensures rules == before + LoadRules(g) && penalty == TotalPenalty(rules)
  {
    rules, penalty := Record(before, start, CpuPressure, g.cpu, 15);
    rules, penalty := Record(rules, penalty, SwapPressure, g.swap, 20);
    rules, penalty := Record(rules, penalty, ThermalPressure, g.thermal != 0, g.thermal);
    rules, penalty := Record(rules, penalty, HeavyProcessPressure, g.heavy, 10);
  }

  /** The six rules, evaluated one after the other. */
  method CollectRules(g: Signals) returns (rules: seq<Rule>, penalty: int)
    ensures rules == Rules(g) && penalty == TotalPenalty(rules)
  {
    rules, penalty := CollectMemoryRules(g);
    rules, penalty := CollectLoadRules(g, rules, penalty);
  }

  /** The evaluation. The penalty it applies is the sum of the traced penalties, so the juice level
      can be recomputed from the trace. */
  method Evaluate(c: Config, t: Option<Telemetry>, open: nat) returns (r: Report)
    ensures r == ReportFor(c, t, open)
    ensures ValidConfig(c) && t.Some? ==> Explained(c, t.value, open, r)
    ensures t.None? ==>
      && r.juice == c.backgroundBaseJuice && r.state == Normal && !r.yieldActive
      && r.yieldPercent == c.ramYield && r.recoverPercent == c.ramRecover && r.scale == 1.0
      && |r.rules| == 1 && Traced(r.rules[0], TelemetryRule, false, 0)
    ensures ValidConfig(c) && t.None? ==> LimitsFit(c, Normal, false, false, open, r.limits)
  {
    if ValidConfig(c) {
      if t.Some? {
        ReportIsExplained(c, t.value, open);
      }
      LimitsAre(c, Normal, false, false, open);
    }
    match t
    case None =>
      var rules := [Rule(TelemetryRule, false, 0)];
      var limits := ComputeConcurrencyLimits(c, Normal, rules, open);
      r := Report(Normal, c.backgroundBaseJuice, false, c.ramYield, c.ramRecover, 1.0, rules, limits);
    case Some(t) =>
      var g := SignalsOf(c, t);
      var rules, penalty := CollectRules(g);
      var state := StateFor(g.yielding, penalty);
      TriggersAreTests(g);
      var limits := ComputeConcurrencyLimits(c, state, rules, open);
      r := Report(state, JuiceFor(c, penalty), g.yielding, YieldPercent(c, t), RecoverPercent(c, t),
                  BudgetScale(t.ramTotalBytes), rules, limits);
  }

  lemma TriggersAreTests(g: Signals)
    ensures Triggered(Rules(g), SwapPressure) <==> g.swap
    ensures Triggered(Rules(g), ThermalPressure) <==> g.thermal != 0
  {
    var rules := Rules(g);
    assert rules[3].name == SwapPressure && rules[4].name == ThermalPressure;
  }

  /** The part decided by the system state. */
  method LimitsForState(c: Config, state: SystemState)
    returns (foreground: int, background: int, endpointForeground: int, endpointBackground: int)
    ensures Limits(foreground, background, endpointForeground, endpointBackground)
         == StateStage(ConfiguredLimits(c), state)
  {
    foreground, background := c.maxForeground, c.maxBackground;
    endpointForeground, endpointBackground := c.maxEndpointForeground, c.maxEndpointBackground;
    if state.Yielding? {
      background, endpointBackground := 0, 0;
      foreground := Max(1, foreground / 2);
      endpointForeground := Max(1, endpointForeground / 2);
    } else if state.Pressured? {
      background := Max(1, background / 2);
      foreground := Max(1, (foreground * 3) / 4);
      endpointBackground := Max(1, endpointBackground / 2);
      endpointForeground := Max(1, (endpointForeground * 3) / 4);
    } else if state.Recovering? {
      background := Max(1, background * 3 / 4);
      endpointBackground := Max(1, endpointBackground * 3 / 4);
    }
  }

  /** The limits, reassigned step by step from the state and the triggered rules. */
  method ComputeConcurrencyLimits(c: Config, state: SystemState, rules: seq<Rule>, open: nat) returns (l: Limits)
    ensures l == LimitsFor(c, state, Triggered(rules, SwapPressure), Triggered(rules, ThermalPressure), open)
  {
    var foreground, background, endpointForeground, endpointBackground := LimitsForState(c, state);
    var floor := if state.Yielding? then 0 else 1;
    if Triggered(rules, SwapPressure) {
      background := Max(floor, background / 2);
      endpointBackground := Max(floor, endpointBackground / 2);
    }
    if Triggered(rules, ThermalPressure) {
      foreground := Max(1, foreground - 1);
      background := Max(floor, background - 1);
      endpointForeground := Max(1, endpointForeground - 1);
      endpointBackground := Max(floor, endpointBackground - 1);
    }
    if open > 0 {
      endpointForeground := Max(1, endpointForeground - open);
      endpointBackground := Max(floor, endpointBackground - open);
    }
    l := Limits(foreground, background, endpointForeground, endpointBackground);
  }

  // ----- Budgets -----

  datatype RequestClass = UserPrompt | BackgroundRequest | UnknownRequest

  datatype Budget = Budget(juice: int, contextTokens: int, outputTokens: int, concurrency: int)

  function Clamped(b: Budget): Budget {
    Budget(Max(1, Min(100, b.juice)), Max(512, b.contextTokens), Max(32, b.outputTokens), Max(1, b.concurrency))
  }

  function Fraction(r: Report): real {
    RMax(0.05, r.juice as real / 100.0 * r.scale)
  }

  function Tokens(base: int, f: real): int {
    (base as real * f).Floor
  }

  function BackgroundBudget(c: Config, juice: int, f: real): Budget {
    Clamped(Budget(juice, Tokens(c.baseContextTokens, f), Tokens(c.baseOutputTokens, f),
                   Max(1, Min(c.maxBackground, RoundHalfEven(3.0 * f)))))
  }

  function ForegroundBudget(c: Config, scale: real): Budget {
    Clamped(Budget(c.foregroundJuice, Tokens(c.baseContextTokens, scale), Tokens(c.baseOutputTokens, scale),
                   c.maxForeground))
  }

  function BudgetFor(c: Config, k: RequestClass, r: Report): Budget {
    if k.UserPrompt? then ForegroundBudget(c, r.scale)
    else BackgroundBudget(c, r.juice, Fraction(r))
  }
}
