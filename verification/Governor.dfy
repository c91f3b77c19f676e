/**
 The endpoint governor: a pool of slots per endpoint, created on first use, under the endpoint
 limits of the pressure report. Every method performs one step of the slot monitor.
 */
module Governor {
  import opened Common
  import opened SlotMonitor
  import Policy
  import PolicyTheorems

  /** Endpoint pools have no total capacity. */
  function MonitorConfig(p: Policy.Config): Config {
    Config(p.maxEndpointForeground, p.maxEndpointBackground, None)
  }

  class EndpointConcurrencyGovernor {
    ghost const policy: Policy.Config
    var limits: Limits
    var running: map<string, Counts>
    /** Who waits and who holds; the event loop keeps this, not the governor. */
    ghost var tasks: map<Task, Entry>

    constructor (names: seq<string>, ghost policy: Policy.Config)
      requires Policy.ValidConfig(policy)
      ensures this.policy == policy && Valid() && Initial(MonitorConfig(policy), View())
      ensures running.Keys == (set n | n in names) && limits == Limits(1, 1)
    {
      this.policy := policy;
      limits := Limits(1, 1);
      running := map n | n in names :: Counts(0, 0);
      tasks := map[];
      new;
      InvInitial(MonitorConfig(policy), View());
    }

    ghost function View(): State
      reads this
    {
      State(limits, running, tasks)
    }

    ghost predicate Valid()
      reads this
    {
      Policy.ValidConfig(policy) && Inv(MonitorConfig(policy), View())
    }

    /** Free exactly when fewer tasks hold such a slot at the endpoint than its limit allows. */
    method CanAcquireLocked(name: string, foreground: bool) returns (free: bool)
      requires Valid()
      modifies `running
      ensures running == Touch(old(running), name)
      ensures free == CanAcquire(MonitorConfig(policy), old(View()), Claim(name, foreground))
      ensures free <==> |Holders(old(View()), Claim(name, foreground))|
                        < if foreground then limits.foreground else limits.background
    {
      FreeIsBelowLimit(MonitorConfig(policy), View(), Claim(name, foreground));
      if name !in running {
        running := running[name := Counts(0, 0)];
      }
      assert running == Touch(old(running), name);
      var counts := running[name];
      if foreground {
        return counts.foreground < limits.foreground;
      }
      if limits.background <= 0 {
        return false;
      }
      return counts.background < limits.background;
    }

    /** One turn of the acquire loop, on the first call or after a wakeup: take a slot or park. */
    method AcquireTurn(t: Task, name: string, foreground: bool) returns (granted: bool)
      requires Valid()
      requires t in tasks ==> tasks[t] == Entry(Claim(name, foreground), Notified)
      modifies this
      ensures Valid()
      ensures View() == Step(MonitorConfig(policy), old(View()), TurnEvent(old(View()), t, Claim(name, foreground)))
      ensures granted <==> View().tasks[t].stage.Holding?
      ensures granted <==> |Holders(old(View()), Claim(name, foreground))|
                           < if foreground then limits.foreground else limits.background
    {
      ghost var before := View();
      TurnInv(MonitorConfig(policy), before, t, Claim(name, foreground));
      CountsAreNatural(MonitorConfig(policy), before, name);
      granted := CanAcquireLocked(name, foreground);
      if granted {
        var counts := running[name];
        if foreground {
          counts := counts.(foreground := counts.foreground + 1);
        } else {
          counts := counts.(background := counts.background + 1);
        }
        running := running[name := counts];
      }
      tasks := tasks[t := Entry(Claim(name, foreground), if granted then Holding else Parked)];
      assert View().counts == Attempt(MonitorConfig(policy), before, t, Claim(name, foreground)).counts;
    }

    /** A task is cancelled while it waits for a slot. */
    ghost method CancelTurn(t: Task)
      requires Valid() && t in tasks && !tasks[t].stage.Holding?
      modifies `tasks
      ensures Valid() && View() == Step(MonitorConfig(policy), old(View()), CancelWait(t))
    {
      InvStep(MonitorConfig(policy), View(), CancelWait(t));
      tasks := tasks - {t};
    }

    method Release(t: Task, name: string, foreground: bool)
      requires Valid() && t in tasks && tasks[t] == Entry(Claim(name, foreground), Holding)
      modifies this
      ensures Valid() && View() == Step(MonitorConfig(policy), old(View()), Event.Release(t))
      ensures tasks.Keys == old(tasks).Keys - {t} && forall x :: x in tasks ==> tasks[x].stage != Parked
    {
      ghost var before := View();
      InvStep(MonitorConfig(policy), before, Event.Release(t));
      var counts := if name in running then running[name] else Counts(0, 0);
      if foreground {
        counts := counts.(foreground := Max(0, counts.foreground - 1));
      } else {
        counts := counts.(background := Max(0, counts.background - 1));
      }
      running := running[name := counts];
      tasks := NotifyAll(tasks - {t});
      assert View() == Freed(before, t, Claim(name, foreground));
    }

    /** Applies the endpoint limits of a pressure report. Any report the policy can produce is acceptable. */
    method UpdateLimits(report: Policy.Report, ghost telemetry: Option<Policy.Telemetry>, ghost open: nat)
      requires Valid() && report == Policy.ReportFor(policy, telemetry, open)
      modifies this
      ensures Valid()
      ensures View() == Step(MonitorConfig(policy), old(View()),
                             Update(Limits(report.limits.endpointForeground, report.limits.endpointBackground)))
      ensures limits == Limits(report.limits.endpointForeground, report.limits.endpointBackground)
      ensures forall x :: x in tasks ==> tasks[x].stage != Parked
    {
      PolicyTheorems.ReportLimitsInRange(policy, telemetry, open);
      ghost var l := Limits(report.limits.endpointForeground, report.limits.endpointBackground);
      InvStep(MonitorConfig(policy), View(), Update(l));
      limits := Limits(report.limits.endpointForeground, report.limits.endpointBackground);
      tasks := NotifyAll(tasks);
    }
  }
}
