/**
 The adaptive scheduler: one pool of slots whose limits follow the pressure report. Every method
 is the code that runs between two awaits and performs one step of the slot monitor.
 */
module Scheduler {
  import opened Common
  import opened SlotMonitor
  import Policy
  import PolicyTheorems

  const POOL := "scheduler"

  function MonitorConfig(p: Policy.Config): Config {
    Config(p.maxForeground, p.maxBackground, Some(p.maxForeground + p.maxBackground))
  }

  class AdaptiveScheduler {
    const policy: Policy.Config
    var effectiveForeground: int
    var effectiveBackground: int
    var runningForeground: int
    var runningBackground: int
    /** Who waits and who holds; the event loop keeps this, not the scheduler. */
    ghost var tasks: map<Task, Entry>

    constructor (policy: Policy.Config)
      requires Policy.ValidConfig(policy)
      ensures this.policy == policy && Valid() && Initial(MonitorConfig(policy), View())
      ensures effectiveForeground == policy.maxForeground && effectiveBackground == policy.maxBackground
    {
      this.policy := policy;
      effectiveForeground, effectiveBackground := policy.maxForeground, policy.maxBackground;
      runningForeground, runningBackground := 0, 0;
      tasks := map[];
      new;
      InvInitial(MonitorConfig(policy), View());
    }

    ghost function View(): State
      reads this
    {
      State(Limits(effectiveForeground, effectiveBackground),
            map[POOL := Counts(runningForeground, runningBackground)], tasks)
    }

    ghost predicate Valid()
      reads this
    {
      && Policy.ValidConfig(policy)
      && Inv(MonitorConfig(policy), View())
      && forall t :: t in tasks ==> tasks[t].claim.pool == POOL
    }

    function TotalCapacity(): (n: int) {
      policy.maxForeground + policy.maxBackground
    }

    /** Free exactly when fewer tasks hold a background slot than the background limit allows. */
    method CanAcquireBackgroundLocked() returns (free: bool)
      requires Valid()
      ensures free == Free(MonitorConfig(policy), View().limits, Counts(runningForeground, runningBackground), false)
      ensures free <==> |Holders(View(), Claim(POOL, false))| < effectiveBackground
    {
      FreeIsBelowLimit(MonitorConfig(policy), View(), Claim(POOL, false));
      if effectiveBackground <= 0 {
        return false;
      }
      if runningBackground >= effectiveBackground {
        return false;
      }
      var totalRunning := runningForeground + runningBackground;
      return totalRunning < TotalCapacity();
    }

    /** One turn of the acquire loop, on the first call or after a wakeup: take a slot or park. */
    method AcquireTurn(t: Task, foreground: bool) returns (granted: bool)
      requires Valid()
      requires t in tasks ==> tasks[t] == Entry(Claim(POOL, foreground), Notified)
      modifies this
      ensures Valid()
      ensures View() == Step(MonitorConfig(policy), old(View()), TurnEvent(old(View()), t, Claim(POOL, foreground)))
      ensures granted <==> View().tasks[t].stage.Holding?
      ensures granted <==> |Holders(old(View()), Claim(POOL, foreground))|
                           < if foreground then old(effectiveForeground) else old(effectiveBackground)
    {
      ghost var before := View();
      ghost var n := Counts(runningForeground, runningBackground);
      TurnInv(MonitorConfig(policy), before, t, Claim(POOL, foreground));
      TurnGrantedIff(MonitorConfig(policy), before, t, Claim(POOL, foreground));
      CountsAreNatural(MonitorConfig(policy), before, POOL);
      granted := false;
      if foreground {
        if runningForeground < effectiveForeground {
          runningForeground := runningForeground + 1;
          granted := true;
        }
      } else {
        var free := CanAcquireBackgroundLocked();
        if free {
          runningBackground := runningBackground + 1;
          granted := true;
        }
      }
      tasks := tasks[t := Entry(Claim(POOL, foreground), if granted then Holding else Parked)];
      TurnAgrees(MonitorConfig(policy), before, n, t, foreground, View(), granted);
    }

    /** A task is cancelled while it waits for a slot. */
    ghost method CancelTurn(t: Task)
      requires Valid() && t in tasks && !tasks[t].stage.Holding?
      modifies `tasks
      ensures Valid() && View() == Step(MonitorConfig(policy), old(View()), CancelWait(t))
    {
      InvStep(MonitorConfig(policy), View(), CancelWait(t));
      tasks := tasks - {t};
    }

    method ReleaseSlot(t: Task, foreground: bool)
      requires Valid() && t in tasks && tasks[t] == Entry(Claim(POOL, foreground), Holding)
      modifies this
      ensures Valid() && View() == Step(MonitorConfig(policy), old(View()), Release(t))
      ensures tasks.Keys == old(tasks).Keys - {t} && forall x :: x in tasks ==> tasks[x].stage != Parked
    {
      ghost var before := View();
      ghost var n := Counts(runningForeground, runningBackground);
      InvStep(MonitorConfig(policy), before, Release(t));
      if foreground {
        runningForeground := Max(0, runningForeground - 1);
      } else {
        runningBackground := Max(0, runningBackground - 1);
      }
      tasks := NotifyAll(tasks - {t});
      ReleaseAgrees(before, n, t, foreground, View());
    }

    /** Applies the limits of a pressure report. Any report the policy can produce is acceptable. */
    method UpdatePressure(report: Policy.Report, ghost telemetry: Option<Policy.Telemetry>, ghost open: nat)
      requires Valid() && report == Policy.ReportFor(policy, telemetry, open)
      modifies this
      ensures Valid()
      ensures View() == Step(MonitorConfig(policy), old(View()),
                             Update(Limits(report.limits.foreground, report.limits.background)))
      ensures effectiveForeground == report.limits.foreground && effectiveBackground == report.limits.background
      ensures forall x :: x in tasks ==> tasks[x].stage != Parked
    {
      PolicyTheorems.ReportLimitsInRange(policy, telemetry, open);
      InvStep(MonitorConfig(policy), View(), Update(Limits(report.limits.foreground, report.limits.background)));
      effectiveForeground := report.limits.foreground;
      effectiveBackground := report.limits.background;
      tasks := NotifyAll(tasks);
    }
  }

  /** What a turn did to the fields is what one attempt does to the monitor. */
  lemma TurnAgrees(c: Config, before: State, n: Counts, t: Task, foreground: bool, after: State, granted: bool)
    requires before.counts == map[POOL := n] && 0 <= n.foreground && 0 <= n.background
    requires granted == Free(c, before.limits, n, foreground)
    requires after.counts == map[POOL := if !granted then n
                                         else if foreground then n.(foreground := n.foreground + 1)
                                         else n.(background := n.background + 1)]
    requires after.limits == before.limits
    requires after.tasks == before.tasks[t := Entry(Claim(POOL, foreground), if granted then Holding else Parked)]
    ensures after == Attempt(c, before, t, Claim(POOL, foreground))
  {
    assert after.counts == Attempt(c, before, t, Claim(POOL, foreground)).counts;
  }

  lemma ReleaseAgrees(before: State, n: Counts, t: Task, foreground: bool, after: State)
    requires before.counts == map[POOL := n] && after.limits == before.limits
    requires after.counts == map[POOL := if foreground then n.(foreground := Max(0, n.foreground - 1))
                                         else n.(background := Max(0, n.background - 1))]
    requires after.tasks == NotifyAll(before.tasks - {t})
    ensures after == Freed(before, t, Claim(POOL, foreground))
  {
    assert after.counts == Freed(before, t, Claim(POOL, foreground)).counts;
  }
}
