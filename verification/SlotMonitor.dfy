/**
 Counting monitors: tasks acquire a slot of their class in a named pool, park on one condition
 variable while the guard is false, and every release and every change of limits notifies all.
 The scheduler is one pool with a total capacity; the endpoint governor has a pool per endpoint.
 Each event is the code one task runs between two awaits.
 */
module SlotMonitor {
  import opened Common

  type Task = nat

  datatype Limits = Limits(foreground: int, background: int)

  datatype Counts = Counts(foreground: int, background: int)

  datatype Claim = Claim(pool: string, foreground: bool)

  datatype Stage = Holding | Parked | Notified

  datatype Entry = Entry(claim: Claim, stage: Stage)

  /** The configured maxima, and the total capacity where the monitor checks one. */
  datatype Config = Config(maxForeground: int, maxBackground: int, capacity: Option<int>)

  datatype State = State(limits: Limits, counts: map<string, Counts>, tasks: map<Task, Entry>)

  datatype Event =
    | Ask(task: Task, claim: Claim)
    | Wake(task: Task)
    | CancelWait(task: Task)
    | Release(task: Task)
    | Update(limits: Limits)

  function CountsAt(counts: map<string, Counts>, pool: string): Counts {
    if pool in counts then counts[pool] else Counts(0, 0)
  }

  function Running(s: State, claim: Claim): int {
    var n := CountsAt(s.counts, claim.pool);
    if claim.foreground then n.foreground else n.background
  }

  function LimitFor(l: Limits, foreground: bool): int {
    if foreground then l.foreground else l.background
  }

  predicate Free(c: Config, l: Limits, n: Counts, foreground: bool) {
    if foreground then n.foreground < l.foreground
    else if l.background <= 0 then false
    else if n.background >= l.background then false
    else c.capacity.Some? ==> n.foreground + n.background < c.capacity.value
  }

  predicate CanAcquire(c: Config, s: State, claim: Claim) {
    Free(c, s.limits, CountsAt(s.counts, claim.pool), claim.foreground)
  }

  function Bump(n: Counts, foreground: bool, delta: int): Counts {
    if foreground then n.(foreground := Max(0, n.foreground + delta))
    else n.(background := Max(0, n.background + delta))
  }

  function Adjust(counts: map<string, Counts>, claim: Claim, delta: int): map<string, Counts> {
    counts[claim.pool := Bump(CountsAt(counts, claim.pool), claim.foreground, delta)]
  }

  /** Looking a pool up creates its entry. */
  function Touch(counts: map<string, Counts>, pool: string): map<string, Counts> {
    counts[pool := CountsAt(counts, pool)]
  }

  function NotifyAll(tasks: map<Task, Entry>): map<Task, Entry> {
    map t | t in tasks :: if tasks[t].stage.Parked? then tasks[t].(stage := Notified) else tasks[t]
  }

  /** One pass of the acquire loop: take the slot or park. */
  function Attempt(c: Config, s: State, t: Task, claim: Claim): State {
    if CanAcquire(c, s, claim) then
      s.(counts := Adjust(s.counts, claim, 1), tasks := s.tasks[t := Entry(claim, Holding)])
    else
      s.(counts := Touch(s.counts, claim.pool), tasks := s.tasks[t := Entry(claim, Parked)])
  }

  function Freed(s: State, t: Task, claim: Claim): State {
    s.(counts := Adjust(s.counts, claim, -1), tasks := NotifyAll(s.tasks - {t}))
  }

  predicate Enabled(c: Config, s: State, e: Event) {
    match e
    case Ask(t, _) => t !in s.tasks
    case Wake(t) => t in s.tasks && s.tasks[t].stage.Notified?
    case CancelWait(t) => t in s.tasks && !s.tasks[t].stage.Holding?
    case Release(t) => t in s.tasks && s.tasks[t].stage.Holding?
    case Update(l) => 1 <= l.foreground <= c.maxForeground && 0 <= l.background <= c.maxBackground
  }

  function Step(c: Config, s: State, e: Event): State
    requires Enabled(c, s, e)
  {
    match e
    case Ask(t, claim) => Attempt(c, s, t, claim)
    case Wake(t) => Attempt(c, s, t, s.tasks[t].claim)
    case CancelWait(t) => s.(tasks := s.tasks - {t})
    case Release(t) => Freed(s, t, s.tasks[t].claim)
    case Update(l) => State(l, s.counts, NotifyAll(s.tasks))
  }

  /** One turn of the acquire loop: the first look, or another one after a wakeup. */
  function TurnEvent(s: State, t: Task, claim: Claim): Event {
    if t in s.tasks then Wake(t) else Ask(t, claim)
  }

  ghost predicate IsRun(c: Config, s: State, es: seq<Event>)
    decreases |es|
  {
    es == [] || (Enabled(c, s, es[0]) && IsRun(c, Step(c, s, es[0]), es[1..]))
  }

  ghost function After(c: Config, s: State, es: seq<Event>): State
    requires IsRun(c, s, es)
    decreases |es|
  {
    if es == [] then s else After(c, Step(c, s, es[0]), es[1..])
  }

  ghost predicate Initial(c: Config, s: State) {
    && s.tasks == map[] && (forall p :: p in s.counts ==> s.counts[p] == Counts(0, 0))
    && 1 <= s.limits.foreground <= c.maxForeground && 0 <= s.limits.background <= c.maxBackground
  }

  // ----- Invariants -----

  function Holders(s: State, claim: Claim): set<Task> {
    set t | t in s.tasks && s.tasks[t] == Entry(claim, Holding)
  }

  /** Every count is the number of tasks that hold such a slot. */
  ghost predicate Exact(s: State) {
    forall claim :: Running(s, claim) == |Holders(s, claim)|
  }

  /** No lost wakeup: whoever is parked and not notified finds its guard false. */
  ghost predicate NobodyForgotten(c: Config, s: State) {
    forall t :: t in s.tasks && s.tasks[t].stage.Parked? ==> !CanAcquire(c, s, s.tasks[t].claim)
  }

  ghost predicate Within(c: Config, s: State) {
    && 1 <= s.limits.foreground <= c.maxForeground && 0 <= s.limits.background <= c.maxBackground
    && forall claim :: 0 <= Running(s, claim) <= (if claim.foreground then c.maxForeground else c.maxBackground)
  }

  ghost predicate Inv(c: Config, s: State) {
    Exact(s) && NobodyForgotten(c, s) && Within(c, s)
  }

  lemma AdjustRunning(s: State, claim: Claim, delta: int, tasks: map<Task, Entry>, other: Claim)
    ensures var t := s.(counts := Adjust(s.counts, claim, delta), tasks := tasks);
      Running(t, other) == if other == claim then Max(0, Running(s, claim) + delta) else Running(s, other)
  {
  }

  lemma AttemptExact(c: Config, s: State, t: Task, claim: Claim)
    requires Exact(s) && (t in s.tasks ==> !s.tasks[t].stage.Holding?)
    ensures Exact(Attempt(c, s, t, claim))
  {
    var u := Attempt(c, s, t, claim);
    forall other ensures Running(u, other) == |Holders(u, other)| {
      assert Running(s, other) == |Holders(s, other)|;
      if CanAcquire(c, s, claim) {
        AdjustRunning(s, claim, 1, u.tasks, other);
        if other == claim {
          assert Holders(u, other) == Holders(s, other) + {t};
        } else {
          assert Holders(u, other) == Holders(s, other);
        }
      } else {
        assert Holders(u, other) == Holders(s, other);
      }
    }
  }

  /** A release by a holder lowers exactly its own count; the clamp at zero does nothing. */
  lemma FreedExact(s: State, t: Task)
    requires Exact(s) && t in s.tasks && s.tasks[t].stage.Holding?
    ensures Exact(Freed(s, t, s.tasks[t].claim))
    ensures Running(Freed(s, t, s.tasks[t].claim), s.tasks[t].claim) == Running(s, s.tasks[t].claim) - 1
  {
    var claim := s.tasks[t].claim;
    var u := Freed(s, t, claim);
    assert t in Holders(s, claim);
    forall other ensures Running(u, other) == |Holders(u, other)| {
      assert Running(s, other) == |Holders(s, other)|;
      AdjustRunning(s, claim, -1, u.tasks, other);
      if other == claim {
        assert Holders(u, other) == Holders(s, other) - {t};
      } else {
        assert Holders(u, other) == Holders(s, other);
      }
    }
    assert Running(s, claim) == |Holders(s, claim)| && Running(u, claim) == |Holders(s, claim) - {t}|;
  }

  lemma ExactStep(c: Config, s: State, e: Event)
    requires Exact(s) && Enabled(c, s, e)
    ensures Exact(Step(c, s, e))
  {
    match e
    case Ask(t, claim) => AttemptExact(c, s, t, claim);
    case Wake(t) => AttemptExact(c, s, t, s.tasks[t].claim);
    case Release(t) => FreedExact(s, t);
    case _ =>
      var u := Step(c, s, e);
      forall other ensures Running(u, other) == |Holders(u, other)| {
        assert Running(s, other) == |Holders(s, other)|;
        assert Holders(u, other) == Holders(s, other);
      }
  }

  /** Acquiring only makes guards harder, and a task parks only when its guard is false. */
  lemma AttemptForgetsNobody(c: Config, s: State, t: Task, claim: Claim)
    requires NobodyForgotten(c, s)
    ensures NobodyForgotten(c, Attempt(c, s, t, claim))
  {
    var u := Attempt(c, s, t, claim);
    forall x | x in u.tasks && u.tasks[x].stage.Parked? ensures !CanAcquire(c, u, u.tasks[x].claim) {
      if x == t {
        assert u.counts == Touch(s.counts, claim.pool);
      } else {
        assert !CanAcquire(c, s, s.tasks[x].claim);
        AttemptHardens(c, s, t, claim, s.tasks[x].claim);
      }
    }
  }

  lemma AttemptHardens(c: Config, s: State, t: Task, claim: Claim, other: Claim)
    requires !CanAcquire(c, s, other)
    ensures !CanAcquire(c, Attempt(c, s, t, claim), other)
  {
  }

  /** Releases and updates leave nobody parked; a cancelled wait takes one waiter away. */
  lemma NobodyForgottenStep(c: Config, s: State, e: Event)
    requires NobodyForgotten(c, s) && Enabled(c, s, e)
    ensures NobodyForgotten(c, Step(c, s, e))
  {
    match e
    case Ask(t, claim) => AttemptForgetsNobody(c, s, t, claim);
    case Wake(t) => AttemptForgetsNobody(c, s, t, s.tasks[t].claim);
    case _ =>
  }

  lemma WithinStep(c: Config, s: State, e: Event)
    requires Within(c, s) && Enabled(c, s, e)
    ensures Within(c, Step(c, s, e))
  {
    var u := Step(c, s, e);
    forall claim
      ensures 0 <= Running(u, claim) <= (if claim.foreground then c.maxForeground else c.maxBackground)
    {
      assert 0 <= Running(s, claim) <= (if claim.foreground then c.maxForeground else c.maxBackground);
    }
  }

  lemma InvStep(c: Config, s: State, e: Event)
    requires Inv(c, s) && Enabled(c, s, e)
    ensures Inv(c, Step(c, s, e))
  {
    ExactStep(c, s, e);
    NobodyForgottenStep(c, s, e);
    WithinStep(c, s, e);
  }

  lemma CountsAreNatural(c: Config, s: State, pool: string)
    requires Within(c, s)
    ensures 0 <= CountsAt(s.counts, pool).foreground && 0 <= CountsAt(s.counts, pool).background
  {
    assert 0 <= Running(s, Claim(pool, true));
    assert 0 <= Running(s, Claim(pool, false));
  }

  lemma InvInitial(c: Config, s: State)
    requires Initial(c, s)
    ensures Inv(c, s)
  {
    forall claim ensures Holders(s, claim) == {} {}
  }

  lemma TurnInv(c: Config, s: State, t: Task, claim: Claim)
    requires Inv(c, s) && (t in s.tasks ==> s.tasks[t] == Entry(claim, Notified))
    ensures Enabled(c, s, TurnEvent(s, t, claim)) && Step(c, s, TurnEvent(s, t, claim)) == Attempt(c, s, t, claim)
    ensures Inv(c, Attempt(c, s, t, claim))
  {
    InvStep(c, s, TurnEvent(s, t, claim));
  }

  lemma {:induction false} InvRun(c: Config, s: State, es: seq<Event>)
    requires Inv(c, s) && IsRun(c, s, es)
    ensures Inv(c, After(c, s, es))
    decreases |es|
  {
    if es != [] {
      InvStep(c, s, es[0]);
      InvRun(c, Step(c, s, es[0]), es[1..]);
    }
  }

  lemma PoolTotal(c: Config, s: State, pool: string)
    requires Inv(c, s)
    ensures |Holders(s, Claim(pool, true)) + Holders(s, Claim(pool, false))| <= c.maxForeground + c.maxBackground
  {
    var f, b := Claim(pool, true), Claim(pool, false);
    assert Running(s, f) == |Holders(s, f)| && Running(s, b) == |Holders(s, b)|;
    assert Running(s, f) <= c.maxForeground && Running(s, b) <= c.maxBackground;
    assert |Holders(s, f) + Holders(s, b)| <= |Holders(s, f)| + |Holders(s, b)|;
  }

  /** Exact accounting over whole runs: every count is the number of holders and stays within its
      configured maximum, so no pool ever runs more than both maxima together. */
  lemma SlotsAreExact(c: Config, s0: State, es: seq<Event>, claim: Claim)
    requires Initial(c, s0) && IsRun(c, s0, es)
    ensures var s := After(c, s0, es);
      && Running(s, claim) == |Holders(s, claim)|
      && Running(s, claim) <= (if claim.foreground then c.maxForeground else c.maxBackground)
      && |Holders(s, Claim(claim.pool, true)) + Holders(s, Claim(claim.pool, false))|
         <= c.maxForeground + c.maxBackground
  {
    InvInitial(c, s0);
    InvRun(c, s0, es);
    PoolTotal(c, After(c, s0, es), claim.pool);
  }

  // ----- Who can block whom -----

  /** The tasks that keep a parked task waiting. */
  predicate Blocks(s: State, h: Task, t: Task) {
    h in s.tasks && t in s.tasks && h != t && s.tasks[h] == Entry(s.tasks[t].claim, Holding)
  }

  lemma ParkedForeground(c: Config, s: State, t: Task)
    requires Inv(c, s) && t in s.tasks && s.tasks[t].stage.Parked? && s.tasks[t].claim.foreground
    ensures exists h :: Blocks(s, h, t)
  {
    var claim := s.tasks[t].claim;
    assert !CanAcquire(c, s, claim);
    assert Running(s, claim) == |Holders(s, claim)|;
    var h :| h in Holders(s, claim);
    assert Blocks(s, h, t);
  }

  /** A foreground task that is parked and not notified waits for another foreground holder of the
      same pool: neither background work nor pressure alone ever blocks it. */
  lemma ForegroundWaitsOnlyForForeground(c: Config, s0: State, es: seq<Event>, t: Task)
    requires Initial(c, s0) && IsRun(c, s0, es)
    requires var s := After(c, s0, es);
      t in s.tasks && s.tasks[t].stage.Parked? && s.tasks[t].claim.foreground
    ensures exists h :: Blocks(After(c, s0, es), h, t)
  {
    InvInitial(c, s0);
    InvRun(c, s0, es);
    ParkedForeground(c, After(c, s0, es), t);
  }

  /** With the capacity the scheduler uses, the capacity test never decides: a background slot is
      free exactly when the background limit leaves room, whatever the foreground does. */
  lemma CapacityTestIsRedundant(c: Config, s: State, pool: string)
    requires Inv(c, s) && c.capacity == Some(c.maxForeground + c.maxBackground)
    ensures CanAcquire(c, s, Claim(pool, false))
        <==> Running(s, Claim(pool, false)) < s.limits.background
    ensures Running(s, Claim(pool, true)) + Running(s, Claim(pool, false)) <= c.capacity.value
  {
    assert 0 <= Running(s, Claim(pool, true)) <= c.maxForeground;
    assert 0 <= Running(s, Claim(pool, false)) <= c.maxBackground;
  }

  lemma ParkedBackground(c: Config, s: State, t: Task)
    requires Inv(c, s) && t in s.tasks && s.tasks[t].stage.Parked? && !s.tasks[t].claim.foreground
    requires c.capacity == None || c.capacity == Some(c.maxForeground + c.maxBackground)
    ensures s.limits.background == 0 || exists h :: Blocks(s, h, t)
  {
    var claim := s.tasks[t].claim;
    assert !CanAcquire(c, s, claim);
    if c.capacity.Some? {
      CapacityTestIsRedundant(c, s, claim.pool);
    }
    assert Running(s, claim) == |Holders(s, claim)|;
    if s.limits.background > 0 {
      var h :| h in Holders(s, claim);
      assert Blocks(s, h, t);
    }
  }

  /** A background task that is parked and not notified faces a zero limit or waits for another
      background holder; foreground work never blocks it. */
  lemma BackgroundWaitsOnlyForBackground(c: Config, s0: State, es: seq<Event>, t: Task)
    requires Initial(c, s0) && IsRun(c, s0, es)
    requires c.capacity == None || c.capacity == Some(c.maxForeground + c.maxBackground)
    requires var s := After(c, s0, es);
      t in s.tasks && s.tasks[t].stage.Parked? && !s.tasks[t].claim.foreground
    ensures var s := After(c, s0, es); s.limits.background == 0 || exists h :: Blocks(s, h, t)
  {
    InvInitial(c, s0);
    InvRun(c, s0, es);
    ParkedBackground(c, After(c, s0, es), t);
  }

  // ----- Who is granted a slot -----

  /** Either no total capacity, or room for both maxima together. */
  predicate CapacityFits(c: Config) {
    c.capacity == None || c.capacity == Some(c.maxForeground + c.maxBackground)
  }

  /** Fewer tasks hold such a slot than the limit for its class allows at present. */
  predicate BelowLimit(s: State, claim: Claim) {
    |Holders(s, claim)| < if claim.foreground then s.limits.foreground else s.limits.background
  }

  lemma FreeIsBelowLimit(c: Config, s: State, claim: Claim)
    requires Inv(c, s) && CapacityFits(c)
    ensures CanAcquire(c, s, claim) <==> BelowLimit(s, claim)
  {
    assert Running(s, claim) == |Holders(s, claim)|;
    if c.capacity.Some? && !claim.foreground {
      CapacityTestIsRedundant(c, s, claim.pool);
    }
  }

  /** A turn of the acquire loop is granted exactly when fewer tasks hold a slot of the class in that pool
      than its limit; otherwise the task parks. Nobody else is affected. */
  lemma TurnGrantedIff(c: Config, s: State, t: Task, claim: Claim)
    requires Inv(c, s) && CapacityFits(c) && (t in s.tasks ==> s.tasks[t] == Entry(claim, Notified))
    ensures var u := Step(c, s, TurnEvent(s, t, claim));
      && u.tasks == s.tasks[t := Entry(claim, if BelowLimit(s, claim) then Holding else Parked)]
      && u.limits == s.limits
  {
    FreeIsBelowLimit(c, s, claim);
  }

  /** The same in every reachable state, for the first look and for one after a wakeup. */
  lemma GrantedIff(c: Config, s0: State, es: seq<Event>, t: Task, claim: Claim)
    requires Initial(c, s0) && CapacityFits(c) && IsRun(c, s0, es)
    requires var s := After(c, s0, es); t in s.tasks ==> s.tasks[t] == Entry(claim, Notified)
    ensures var s := After(c, s0, es);
      && Enabled(c, s, TurnEvent(s, t, claim))
      && Step(c, s, TurnEvent(s, t, claim)).tasks
         == s.tasks[t := Entry(claim, if BelowLimit(s, claim) then Holding else Parked)]
  {
    InvInitial(c, s0);
    InvRun(c, s0, es);
    TurnGrantedIff(c, After(c, s0, es), t, claim);
  }

  /** In every reachable state a task that is parked and not notified faces as many holders of its class
      in its pool as the limit allows, or more. */
  lemma ParkedMeansFull(c: Config, s0: State, es: seq<Event>, t: Task)
    requires Initial(c, s0) && CapacityFits(c) && IsRun(c, s0, es)
    requires var s := After(c, s0, es); t in s.tasks && s.tasks[t].stage == Parked
    ensures var s := After(c, s0, es); !BelowLimit(s, s.tasks[t].claim)
  {
    InvInitial(c, s0);
    InvRun(c, s0, es);
    var s := After(c, s0, es);
    FreeIsBelowLimit(c, s, s.tasks[t].claim);
  }

  /** A release frees exactly the holder's slot, an update sets exactly the limits, and both wake every
      parked task; a cancelled wait takes away one waiter. */
  lemma OthersAreWoken(c: Config, s: State, e: Event)
    requires Enabled(c, s, e) && (e.Release? || e.Update? || e.CancelWait?)
    ensures var u := Step(c, s, e);
      && u.limits == (if e.Update? then e.limits else s.limits)
      && u.tasks.Keys == s.tasks.Keys - (if e.Update? then {} else {e.task})
      && forall x :: x in u.tasks ==>
           u.tasks[x] == if s.tasks[x].stage == Parked && !e.CancelWait? then Entry(s.tasks[x].claim, Notified)
                         else s.tasks[x]
  {
  }

  // ----- Shrinking -----

  ghost predicate NoUpdate(es: seq<Event>) {
    forall k :: 0 <= k < |es| ==> !es[k].Update?
  }

  /** Between two changes of limits a count never rises above the limit: an excess left by a drop
      only shrinks, and once below the limit the count stays there. */
  lemma {:induction false} ExcessOnlyShrinks(c: Config, s: State, es: seq<Event>, claim: Claim)
    requires Within(c, s) && IsRun(c, s, es) && NoUpdate(es)
    ensures var t := After(c, s, es);
      t.limits == s.limits && Running(t, claim) <= Max(Running(s, claim), LimitFor(s.limits, claim.foreground))
    decreases |es|
  {
    if es != [] {
      var t := Step(c, s, es[0]);
      WithinStep(c, s, es[0]);
      assert 0 <= Running(s, claim);
      ExcessOnlyShrinks(c, t, es[1..], claim);
    }
  }
}
