/** RAM-pressure hysteresis over all telemetry runs, and how it relates to the policy's own flag. */
module YieldController {
  import opened Common
  import opened HostMemory
  import opened Policy
  import opened PolicyTheorems
  import opened Requests
  import opened Admission

  predicate RecoversOn(c: Config, t: Telemetry) {
    t.ramUsed <= RecoverPercent(c, t)
  }

  function NextActive(c: Config, active: bool, t: Telemetry): bool {
    if !active && YieldsOn(c, t) then true
    else if active && RecoversOn(c, t) then false
    else active
  }

  /** The controller's state after a run of samples. */
  function ActiveAfter(c: Config, ts: seq<Telemetry>): bool {
    if ts == [] then false
    else NextActive(c, ActiveAfter(c, ts[..|ts| - 1]), ts[|ts| - 1])
  }

  class RamYieldController {
    const config: Config
    const hooks: seq<nat>
    var active: bool
    var calls: seq<nat>          // offload hooks called so far, in order
    ghost var seen: seq<Telemetry>

    ghost predicate Valid()
      reads this
    {
      active == ActiveAfter(config, seen)
    }

    constructor (config: Config, hooks: seq<nat>)
      ensures Valid() && seen == [] && calls == [] && this.config == config && this.hooks == hooks
    {
      this.config, this.hooks := config, hooks;
      active, calls, seen := false, [], [];
    }

    /** Updates the state from one sample; each registered hook is called once, and only on a rise. */
    method Update(t: Telemetry) returns (status: bool)
      requires Valid()
      modifies this
      ensures Valid() && seen == old(seen) + [t]
      ensures status == active == NextActive(config, old(active), t)
      ensures var on := DynamicYield(t.ramTotalBytes, config.ramYield);
        var off := DynamicRecover(t.ramTotalBytes, config.ramRecover, config.recoverGap, config.ramYield);
        active == if old(active) then t.ramUsed > off else t.ramUsed >= on
      ensures calls == old(calls) + (if !old(active) && active then hooks else [])
    {
      var toCall: seq<nat> := [];
      var yieldPercent := DynamicYield(t.ramTotalBytes, config.ramYield);
      var recoverPercent := DynamicRecover(t.ramTotalBytes, config.ramRecover, config.recoverGap, config.ramYield);
      if !active && t.ramUsed >= yieldPercent {
        active := true;
        toCall := hooks;
      } else if active && t.ramUsed <= recoverPercent {
        active := false;
      }
      status := active;
      seen := seen + [t];
      assert seen[..|seen| - 1] == old(seen);
      var i := 0;
      while i < |toCall|
        invariant 0 <= i <= |toCall|
        invariant calls == old(calls) + toCall[..i]
        invariant active == status && seen == old(seen) + [t]
      {
        calls := calls + [toCall[i]];
        i := i + 1;
      }
    }
  }

  ghost predicate HeldSince(c: Config, ts: seq<Telemetry>, i: nat)
    requires i < |ts|
  {
    YieldsOn(c, ts[i]) && forall j :: i < j < |ts| ==> !RecoversOn(c, ts[j])
  }

  lemma ThresholdsApart(c: Config, t: Telemetry)
    requires ValidConfig(c)
    ensures RecoverPercent(c, t) < YieldPercent(c, t)
    ensures !(YieldsOn(c, t) && RecoversOn(c, t))
  {
    RecoverBelowYield(t.ramTotalBytes, c.ramRecover, c.recoverGap, c.ramYield);
  }

  /** The controller is active exactly when some sample reached its yield threshold and no later one
      has fallen to its recovery threshold. */
  lemma {:induction false} ActiveIff(c: Config, ts: seq<Telemetry>)
    requires ValidConfig(c)
    ensures ActiveAfter(c, ts) <==> exists i: nat :: i < |ts| && HeldSince(c, ts, i)
    decreases |ts|
  {
    if ts != [] {
      var n := |ts| - 1;
      var before := ts[..n];
      ActiveIff(c, before);
      ThresholdsApart(c, ts[n]);
      if YieldsOn(c, ts[n]) {
        assert HeldSince(c, ts, n);
      } else if ActiveAfter(c, before) && !RecoversOn(c, ts[n]) {
        var i: nat :| i < n && HeldSince(c, before, i);
        assert HeldSince(c, ts, i) by {
          assert before[i] == ts[i];
          forall j | i < j < |ts| ensures !RecoversOn(c, ts[j]) {
            if j < n { assert before[j] == ts[j]; }
          }
        }
      } else {
        forall i: nat | i < |ts| ensures !HeldSince(c, ts, i) {
          if i < n && HeldSince(c, ts, i) {
            assert HeldSince(c, before, i) by {
              forall j | i < j < n ensures !RecoversOn(c, before[j]) { assert before[j] == ts[j]; }
            }
          }
        }
      }
    }
  }

  predicate RisesAt(c: Config, ts: seq<Telemetry>, k: nat)
    requires k < |ts|
  {
    !ActiveAfter(c, ts[..k]) && ActiveAfter(c, ts[..k + 1])
  }

  lemma {:induction false} StaysActive(c: Config, ts: seq<Telemetry>, i: nat, k: nat)
    requires i <= k <= |ts| && ActiveAfter(c, ts[..i])
    requires forall j :: i <= j < k ==> !RecoversOn(c, ts[j])
    ensures ActiveAfter(c, ts[..k])
    decreases k - i
  {
    if i < k {
      assert ts[..i + 1][..i] == ts[..i] && ts[..i + 1][i] == ts[i];
      StaysActive(c, ts, i + 1, k);
    }
  }

  /** No flapping: between two activations some sample fell to its recovery threshold. */
  lemma RisesAreSeparated(c: Config, ts: seq<Telemetry>, i: nat, k: nat)
    requires i < k < |ts| && RisesAt(c, ts, i) && RisesAt(c, ts, k)
    ensures exists j :: i < j < k && RecoversOn(c, ts[j])
  {
    if forall j :: i < j < k ==> !RecoversOn(c, ts[j]) {
      StaysActive(c, ts, i + 1, k);
    }
  }

  /** The runtime feeds each sample to the controller before the policy sees it. The controller is then
      active whenever the policy yields; it is active without the policy yielding exactly when it was
      active before and the sample lies strictly between the two thresholds. */
  lemma ControllerVersusPolicy(c: Config, active: bool, t: Telemetry, open: nat)
    requires ValidConfig(c)
    ensures ReportFor(c, Some(t), open).yieldActive ==> NextActive(c, active, t)
    ensures NextActive(c, active, t) && !ReportFor(c, Some(t), open).yieldActive
       <==> active && RecoverPercent(c, t) < t.ramUsed < YieldPercent(c, t)
  {
    ThresholdsApart(c, t);
  }

  const DEFAULTS := Config(85.0, 78.0, 7.0, 6.0, 88.0, 30.0, 100, 70, 10, 8192, 2048, 4, 2, 2, 1)

  function Sample(ramUsed: real): Telemetry {
    Telemetry(17179869184, ramUsed, 10.0, 0.0, Cool, [])
  }

  /** Although the manual says the service recovers only at the lower threshold, admission reads the
      policy's memoryless flag: with the controller still active, background work is admitted again. */
  lemma AdmissionIgnoresHysteresis()
    ensures ValidConfig(DEFAULTS) && ActiveAfter(DEFAULTS, [Sample(90.0), Sample(80.0)])
    ensures var r := ReportFor(DEFAULTS, Some(Sample(80.0)), 0);
      Decide(DEFAULTS, 128, Metadata(BackgroundRequest, Background, None), r, 0).kind.Throttle?
  {
    assert TotalGb(17179869184) == 16.0;
    assert YieldPercent(DEFAULTS, Sample(80.0)) == 85.0 && RecoverPercent(DEFAULTS, Sample(80.0)) == 78.0;
    assert YieldsOn(DEFAULTS, Sample(90.0));
    var ts := [Sample(90.0), Sample(80.0)];
    assert ts[..1] == [Sample(90.0)] && ts[..1][..0] == [];
    assert ActiveAfter(DEFAULTS, ts[..1]);
    var g := SignalsOf(DEFAULTS, Sample(80.0));
    assert !g.small && !g.yielding && g.elevated && !g.cpu && !g.swap && g.thermal == 0 && !g.heavy;
    PenaltyIs(g);
  }
}
