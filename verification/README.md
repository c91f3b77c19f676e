# ComputeCop traffic control, modelled in Dafny

ComputeCop is a single-event-loop proxy that decides when inference requests may run on a developer
machine. This project models its control core and proves what that core keeps over whole runs.

- **Queue and workers** (`Requests`, `Heapq`, `HeapContents`, `QueueModel`, `QueueInvariants`,
  `QueueEffects`, `QueueTheorems`, `AsyncRequestQueue`). `QueueModel` is a state machine whose events are the pieces of
  code one task runs between two awaits, at one instant of an integer clock; in it the heap is just a set.
  `AsyncRequestQueue.RequestQueue` is the object with its heap of possibly stale ranks, and every method is
  proved to make exactly one step of the machine. The theorems are about the machine; `QueueEffects` says in plain
  fields what each step does.
- **Slot allocators** (`SlotMonitor`, `Scheduler`, `Governor`). One counting monitor with moving limits;
  scheduler and endpoint governor are classes that refine it, with limits taken from any report the policy
  can produce. `Composition` runs queue workers, scheduler slots and immediate requests together.
- **Breaker, routing, failover** (`CircuitBreaker`, `BreakerTheorems`, `Routing`, `RouteChoice`,
  `Failover`). The breaker
  class against a timed automaton; route choice against its own failure diagnosis; the retry loop with a log
  of everything it does, under an arbitrary environment. `EndpointTraffic` interleaves any number of such logs
  at the endpoint governor.
- **Pressure policy** (`HostMemory`, `Policy`, `PolicyTheorems`, `Admission`, `YieldController`).
  Percentages and sizes are reals, limits and penalties integers.
- **Decision index and configuration layers** (`DecisionStore`, `ConfigLayers`).

Telemetry, probe results, upstream outcomes, model compatibility and cancellation are inputs that may take any
value. Configuration field bounds (`Policy.ValidConfig`) are preconditions because the configuration
model rejects anything else.

## Where code and documentation differ

The model follows the code; each difference below is a lemma.

- docs/OPERATIONS.md:92 says queued work continues while the queue is paused. Workers take nothing then
  (`QueueTheorems.PausedTakesNothing`).
- docs/OPERATIONS.md:111-114 describes background work as using only spare slots. The total-capacity test never
  decides anything (`SlotMonitor.CapacityTestIsRedundant`): background slots depend on the background limit alone.
- docs/OPERATIONS.md:199-200 promises the configured hysteresis gap. It is kept exactly under the condition of
  `HostMemory.FullGapIff`.
- README.md:375 and docs/OPERATIONS.md:183 call the yield percentage an upper cap. Below 65 it is not
  (`HostMemory.CapIsUpperBoundIff`).
- docs/OPERATIONS.md:184-186 says larger machines can tolerate more absolute model memory before yielding. Just
  above 8 and 16 GiB they tolerate less than just below (`HostMemory.LargerHostKeepsMoreIff`).
- docs/OPERATIONS.md:197 says the service recovers only at the lower threshold. Admission reads the policy's
  memoryless flag (`YieldController.AdmissionIgnoresHysteresis`).
- docs/OPERATIONS.md:146-148 says a stream releases its capacity when it ends. It is released a first time
  before the stream starts (`Failover.StreamingReleasesTwice`). A stream that is never started, because the client
  is gone before the body, releases that once only, which is right (`Failover.StreamNeutral`).
- The unknown-family error of automatic routing is never reached (`Routing.RefusedIff`); with an unknown family
  the retry loop may run for ever (`Failover.EndlessIff`). The callers in app.py pass known families only.
- `half_open_successes` above one is not honoured when a success arrives before anything has looked at the breaker
  (`BreakerTheorems.LazyIsEagerIff`).

## Model

| member | source | states |
|---|---|---|
| QueueTheorems.QuiescentMeansBusy | src/computecop/request_queue.py:204-225 | No lost wakeup: in every reachable state with no worker on its way to `get`, an unpaused non-empty queue has no parked worker; each is busy or has ended |
| QueueInvariants.AwakeStep | src/computecop/request_queue.py:114-144 | The inductive form: unless paused, while a worker is parked there are at least as many notified workers as heap items; every step keeps it, with a single notify per submit and notify-all on pause, resume, drain and close |
| QueueTheorems.BoundedOvertaking | src/computecop/request_queue.py:372-393 | Once ripe, a request that stays queued sees at most as many pops as there were earlier requests queued when it ripened, over any run |
| QueueTheorems.RipeStep | src/computecop/request_queue.py:204-222 | One step takes, ahead of a ripe request, only a request that was queued before it and never adds one ahead of it |
| QueueTheorems.OvertakingIsLimited | src/computecop/request_queue.py:430-437 | A live request is passed over for a later one only for a strictly better base rank and only while it is not ripe |
| QueueTheorems.OnePlacePerRequest | src/computecop/request_queue.py:227-278 | Every accepted request is in the heap, or held by exactly one worker, or gone; a gone one has a settled future unless its worker was cancelled |
| QueueTheorems.CountersAreHolders | src/computecop/request_queue.py:400-404 | The running counters equal the numbers of workers holding a request of the class, so never exceed the workers |
| QueueInvariants.CountedStep | src/computecop/request_queue.py:400-404 | Every step moves the counters exactly with the holders; the clamp at zero never takes effect |
| QueueTheorems.FlowBalance | src/computecop/request_queue.py:240-278 | Over a run `completed` grows by the ended runs, and what is running is what was running plus what was taken less what ended or was given up |
| QueueTheorems.SubmissionBalance | src/computecop/request_queue.py:174-195 | Over a run every submission is counted once, as issued or as rejected |
| QueueTheorems.SettledOnce | src/computecop/request_queue.py:395-398 | An outcome, once set, never changes in any continuation of the run |
| QueueTheorems.OutcomeHasCause | src/computecop/request_queue.py:227-290 | Every outcome goes back to one step entitled to set it: the end of its own runner, its deadline while queued, its submitter, or a close over it |
| QueueTheorems.ClosedIsFinal | src/computecop/request_queue.py:280-297 | From a closed state on the queue stays closed and empty and accepts nothing |
| QueueTheorems.FullMeansFull | src/computecop/request_queue.py:176-182 | A full rejection means exactly `max_size` live requests are queued |
| QueueInvariants.BoundedStep | src/computecop/request_queue.py:179-191 | Every step keeps the heap within `max_size`, and empty when closed |
| QueueTheorems.BackgroundEntersOnlyWhileAccepting | src/computecop/request_queue.py:347-357 | A step that adds background work is a submit to an accepting queue |
| QueueTheorems.DrainedMeansDone | src/computecop/request_queue.py:135-154 | A drain that answers true with no resume or close in between: all background work accepted before it has left heap and workers, and none came in |
| QueueTheorems.PausedTakesNothing | src/computecop/request_queue.py:211-223 | While the queue stays paused no worker takes anything |
| QueueTheorems.NeverRequeued | src/computecop/request_queue.py:183-191 | A request that left the heap never re-enters it |
| QueueInvariants.ReachableInv | src/computecop/request_queue.py:114-297 | All queue invariants (dense sequence numbers in enqueue order, one place per request, accounted futures, exact counters, bounded heap, wakeups) hold in every reachable state |
| AsyncRequestQueue.RequestQueue.constructor | src/computecop/request_queue.py:70-103 | A fresh queue is an initial state of the state machine |
| AsyncRequestQueue.RequestQueue.Submit | src/computecop/request_queue.py:156-195 | Accepts exactly when not closed, accepting or foreground, and fewer than `max_size` heap entries may still be started; each refusal names its test; the accepted request stands in the heap as submitted, at the present instant, with a pending future, and the longest waiting worker is woken |
| AsyncRequestQueue.RequestQueue.CancelFuture | src/computecop/request_queue.py:197-202 | The submitter is cancelled while awaiting: exactly its pending future becomes cancelled |
| AsyncRequestQueue.RequestQueue.ObserveCancel | src/computecop/request_queue.py:199-202 | The submitter's handler marks exactly that request, once its future is settled |
| AsyncRequestQueue.RequestQueue.Pass | src/computecop/request_queue.py:204-225 | One pass of `get`: takes a request exactly when not paused and an entry may still be started, namely the one that minimises (rank aged to now, sequence) whatever stale ranks the heap held; ends exactly when closed; otherwise parks behind the other waiters |
| AsyncRequestQueue.RequestQueue.Acquired | src/computecop/request_queue.py:251-258 | The worker enters its runner with the request it took |
| AsyncRequestQueue.RequestQueue.EndRun | src/computecop/request_queue.py:259-271 | The runner returned or raised: exactly its outcome settles the future, if still pending; the worker keeps the request |
| AsyncRequestQueue.RequestQueue.Finish | src/computecop/request_queue.py:272-278 | The bookkeeping after a runner: lowers the class counter and counts one completion; the worker is free again, or ends if its runner was cancelled |
| AsyncRequestQueue.RequestQueue.CancelAcquire | src/computecop/request_queue.py:251-257 | A worker cancelled while waiting for capacity lowers the class counter and ends; no completion is counted |
| AsyncRequestQueue.RequestQueue.CancelRun | src/computecop/request_queue.py:259-273 | A worker cancelled inside its runner keeps the request until its bookkeeping and settles nothing |
| AsyncRequestQueue.RequestQueue.Pause | src/computecop/request_queue.py:114-122 | Pauses unless closed and wakes every parked worker |
| AsyncRequestQueue.RequestQueue.Resume | src/computecop/request_queue.py:124-133 | Accepts again unless closed and wakes every parked worker |
| AsyncRequestQueue.RequestQueue.BeginDrain | src/computecop/request_queue.py:135-144 | Drains unless closed and wakes every parked worker |
| AsyncRequestQueue.RequestQueue.PollDrain | src/computecop/request_queue.py:146-154 | Answers true when closed or when heap and background counter are empty, false past the deadline, otherwise nothing yet |
| AsyncRequestQueue.RequestQueue.Close | src/computecop/request_queue.py:280-297 | Closes, cancels and empties the heap and wakes every parked worker |
| AsyncRequestQueue.RequestQueue.DiscardExpiredLocked | src/computecop/request_queue.py:359-370 | On the heap: afterwards it holds exactly the live entries, in heap order, and each overdue pending future is timed out |
| AsyncRequestQueue.RequestQueue.RebalanceAgingLocked | src/computecop/request_queue.py:372-393 | Re-ranks every entry to the present, keeping the same requests and heap order |
| HeapContents.RootIsFirst | src/computecop/request_queue.py:213-214 | With current ranks the heap root is the first request in service order |
| Heapq.Push | src/computecop/request_queue.py:183-191 | Push keeps heap order and adds exactly the new item |
| Heapq.Pop | src/computecop/request_queue.py:214-214 | Pop keeps heap order and removes exactly the root |
| Heapq.Heapify | src/computecop/request_queue.py:368-370 | Heapify yields heap order on the same items |
| Requests.RipeHasRankZero | src/computecop/request_queue.py:381-390 | From age base rank times interval on, a request has rank zero |
| Requests.OvertakingNeedsBetterRank | src/computecop/request_queue.py:381-390 | In service order a later request precedes an earlier one only with a strictly better base rank and before the earlier one is ripe |
| QueueEffects.AcceptedIff | src/computecop/request_queue.py:347-357 | The verdict on a submit in the fields of the state, with the failed test of each refusal |
| QueueEffects.AcceptedEnters | src/computecop/request_queue.py:156-195 | What an accepted submit changes: the entry as submitted, overdue futures timed out, one parked worker woken |
| QueueEffects.RefusedLeaves | src/computecop/request_queue.py:176-182 | What a refused submit changes: the rejection count, and discarded entries only when full |
| QueueEffects.TakesIff | src/computecop/request_queue.py:204-225 | When a worker takes, parks or ends, and what becomes of the heap and of overdue futures; draining does not stop it |
| QueueEffects.TakesMostUrgent | src/computecop/request_queue.py:372-393 | No startable request is more urgent than the one taken, counting one class for every full interval waited; among equals the earliest goes first |
| QueueEffects.RunnerSettles | src/computecop/request_queue.py:259-271 | The runner's end settles its own pending future with its outcome and nothing else |
| QueueEffects.WorkerReturns | src/computecop/request_queue.py:272-278 | After the bookkeeping the worker is free for the next request unless its runner was cancelled |
| QueueEffects.CancelledWorker | src/computecop/request_queue.py:251-277 | Cancelling a worker settles nothing |
| QueueEffects.WorkersServeUntilClosed | src/computecop/request_queue.py:227-243 | Over any run a worker that nobody cancels ends only once the queue is closed |
| QueueEffects.SubmitterCancels | src/computecop/request_queue.py:197-202 | A cancelled submitter settles its own pending future and marks its own request |
| QueueEffects.OnlyTheClockMoves | src/computecop/request_queue.py:378-381 | Time passing changes nothing by itself: ages and deadlines are looked at only in the steps above |
| QueueEffects.LifecycleMoves | src/computecop/request_queue.py:114-144 | Pause, resume and drain enter their own state and wake every parked worker |
| QueueEffects.ClosedIgnoresOperators | src/computecop/request_queue.py:114-140 | A closed queue ignores pause, resume and drain |
| QueueEffects.CloseEffect | src/computecop/request_queue.py:280-297 | Close cancels exactly the queued requests, empties the heap and wakes every parked worker |
| SlotMonitor.SlotsAreExact | src/computecop/scheduler.py:214-241 | Over every run of asks, wakeups, cancellations, releases and limit changes each count equals its holders and stays within its maximum, and a pool never runs more than both maxima together |
| SlotMonitor.ExactStep | src/computecop/scheduler.py:226-232 | Every step keeps each count equal to the number of its holders |
| SlotMonitor.FreedExact | src/computecop/scheduler.py:226-232 | A release by a holder lowers exactly its own count by one; the clamp at zero does nothing |
| SlotMonitor.NobodyForgottenStep | src/computecop/scheduler.py:115-122 | Every step keeps: a task that is parked and not notified could not acquire |
| SlotMonitor.ForegroundWaitsOnlyForForeground | src/computecop/scheduler.py:214-224 | A parked un-notified foreground task implies another foreground holder of the same pool |
| SlotMonitor.BackgroundWaitsOnlyForBackground | src/computecop/scheduler.py:235-241 | A parked un-notified background task faces a zero limit or another background holder; foreground work never blocks it |
| SlotMonitor.CapacityTestIsRedundant | src/computecop/scheduler.py:235-241 | The total-capacity test never decides: a background slot is free exactly when the background limit leaves room |
| SlotMonitor.ExcessOnlyShrinks | src/computecop/scheduler.py:115-122 | Between two changes of limits a count never exceeds the larger of its starting value and the limit |
| SlotMonitor.GrantedIff | src/computecop/scheduler.py:214-241 | In every reachable state a turn is granted exactly when fewer tasks hold a slot of the class in the pool than its limit; otherwise the task parks |
| SlotMonitor.ParkedMeansFull | src/computecop/scheduler.py:214-241 | In every reachable state a parked un-notified task faces at least as many holders of its class and pool as the limit |
| SlotMonitor.OthersAreWoken | src/computecop/scheduler.py:115-122 | Releases and updates wake every parked task and change nothing else about the others |
| Scheduler.AdaptiveScheduler.constructor | src/computecop/scheduler.py:77-95 | A fresh scheduler is an initial monitor state under the configured maxima |
| Scheduler.AdaptiveScheduler.AcquireTurn | src/computecop/scheduler.py:214-224 | One turn of the acquire loop is exactly one ask or wakeup of the monitor, granted exactly when fewer tasks hold such a slot than the effective limit |
| Scheduler.AdaptiveScheduler.CanAcquireBackgroundLocked | src/computecop/scheduler.py:235-241 | Free exactly when fewer tasks hold a background slot than the effective background limit |
| Scheduler.AdaptiveScheduler.ReleaseSlot | src/computecop/scheduler.py:226-232 | Is exactly the release step, waking all waiters |
| Scheduler.AdaptiveScheduler.UpdatePressure | src/computecop/scheduler.py:115-122 | For every report the policy can produce, is exactly a permitted change of limits, waking all waiters |
| Governor.EndpointConcurrencyGovernor.constructor | src/computecop/concurrency.py:40-51 | A fresh governor has one zero pool per distinct endpoint and limits one and one |
| Governor.EndpointConcurrencyGovernor.AcquireTurn | src/computecop/concurrency.py:66-76 | One turn of the acquire loop is exactly one ask or wakeup in the endpoint's pool, granted exactly when fewer tasks hold such a slot there than the limit |
| Governor.EndpointConcurrencyGovernor.CanAcquireLocked | src/computecop/concurrency.py:121-127 | Free exactly when fewer tasks hold such a slot at the endpoint than the limit; creates the endpoint's entry on first use |
| Governor.EndpointConcurrencyGovernor.Release | src/computecop/concurrency.py:79-88 | Is exactly the release step, waking all waiters |
| Governor.EndpointConcurrencyGovernor.UpdateLimits | src/computecop/concurrency.py:58-63 | For every report the policy can produce, is exactly a permitted change of limits |
| Composition.NoDeadlock | src/computecop/scheduler.py:143-160 | Queue and scheduler together never deadlock: with work queued, not paused, background slots allowed and a worker alive, in a state in which nobody can move somebody holds a slot, and is inside its runner if it is a queue worker |
| Composition.TotalCapacityHolds | src/computecop/scheduler.py:97-102 | Queue workers and immediate requests together never hold more slots than the total capacity |
| Composition.RunnersHoldTheirSlot | src/computecop/request_queue.py:251-274 | A queue worker inside its runner holds a slot of exactly its request's class |
| Composition.InvStep | src/computecop/request_queue.py:240-278 | Every interleaved step of workers, immediate requests and operators keeps both machines' invariants and the link between a worker's phase and its slot |
| EndpointTraffic.InvStep | src/computecop/concurrency.py:66-88 | Any number of buffered requests interleaved at the governor: every step keeps the monitor's invariants and the agreement of each request's log with its slot |
| EndpointTraffic.ReleaseIsByHolder | src/computecop/app.py:632-692 | Every release that failover performs is by a request that holds exactly that slot |
| EndpointTraffic.EndpointCountsAreInFlight | src/computecop/concurrency.py:66-88 | Over every interleaving each endpoint count is the number of buffered requests between their acquire and their release there, within the maximum |
| EndpointTraffic.QuietEndpointsAreEmpty | src/computecop/app.py:690-692 | When every buffered request has ended, every endpoint counter is zero |
| EndpointTraffic.WaitersAreServed | src/computecop/concurrency.py:66-76 | A request waiting at an endpoint, unless background under a zero limit, waits for one of its class there that holds a slot and can move on |
| EndpointTraffic.MovesOrParks | src/computecop/concurrency.py:66-76 | A request that can move performs its next action or parks for want of a slot; no other request moves |
| CircuitBreaker.EndpointCircuitBreaker.constructor | src/computecop/health.py:81-91 | A fresh breaker is closed with zero counters |
| CircuitBreaker.EndpointCircuitBreaker.AllowsTraffic | src/computecop/health.py:111-113 | Advances lazily at that instant and answers whether the state is not open |
| CircuitBreaker.EndpointCircuitBreaker.RecordSuccess | src/computecop/health.py:115-129 | Is exactly the success operation of the timed automaton |
| CircuitBreaker.EndpointCircuitBreaker.RecordFailure | src/computecop/health.py:131-146 | Is exactly the failure operation of the timed automaton |
| CircuitBreaker.CreateBreaker | src/computecop/health.py:68-80 | Construction fails exactly on parameters out of range |
| BreakerTheorems.HistoryInvariant | src/computecop/health.py:111-162 | Closed: the count equals failures since the last success and is below threshold; otherwise it is at least threshold and the trip instant is the latest failure; half-open count below target and non-zero only half-open |
| BreakerTheorems.RefusedUntilCooldown | src/computecop/health.py:156-162 | From a trip until the breaker closes again, whatever partial successes and re-trips lie between, traffic is allowed if and only if the cooldown since the latest failure has elapsed |
| BreakerTheorems.ThresholdTrips | src/computecop/health.py:131-139 | Threshold failures with no success since always leave the breaker tripped |
| BreakerTheorems.UnobservableIff | src/computecop/health.py:93-113 | Adding or removing observations never changes a later state, over all timed runs, if and only if one success closes the breaker |
| BreakerTheorems.ClosesAtTarget | src/computecop/health.py:118-121 | A half-open breaker closes with exactly the target-th success in a row |
| BreakerTheorems.HalfOpenFailureTrips | src/computecop/health.py:135-136 | One failure while half-open trips the breaker again from that instant |
| BreakerTheorems.StateIsHistory | src/computecop/health.py:93-162 | With one required success the whole state is a function of the recorded history and the time |
| BreakerTheorems.ObservationsAreInvisible | src/computecop/health.py:93-113 | With one required success, adding or removing observations never changes a later state |
| BreakerTheorems.LazyIsEager | src/computecop/health.py:93-162 | With one required success, lazy and eager breaker agree after every timed run |
| BreakerTheorems.LazyIsEagerIff | src/computecop/health.py:93-162 | Lazy and eager breaker agree on all timed runs if and only if one success closes the breaker |
| BreakerTheorems.LazyDiffers | src/computecop/health.py:115-129 | A run on which a breaker needing several successes closes after one |
| Routing.CompatibleIsBest | src/computecop/endpoints.py:291-336 | A choice exists exactly when some fitting route has traffic allowed; it is least in (failure rate, streak, name) among the healthy, or among all if none is healthy |
| Routing.Best | src/computecop/endpoints.py:399-409 | Returns a member of the pool no other precedes |
| RouteChoice.AutomaticPicksBest | src/computecop/endpoints.py:291-336 | Automatic routing picks a route that serves the request and may carry it, a sound one if there is any, and none of its health class is better by failure share, then streak, then name |
| RouteChoice.AutomaticFallsBack | src/computecop/app.py:934-938 | When no route does, the default is taken exactly if it is not excluded and has traffic allowed |
| RouteChoice.RateIsNearest | src/computecop/endpoints.py:387-390 | The compared rate is the share of failed probes to the nearest ten-thousandth |
| RouteChoice.RoundingCanHide | src/computecop/endpoints.py:387-409 | Two routes of which the one with the higher share of failures is chosen |
| RouteChoice.TieHidesOne | src/computecop/endpoints.py:387-390 | Exactly halfway between two ten-thousandths the preferred share may be higher by a whole one |
| RouteChoice.ExplicitIsNamed | src/computecop/app.py:874-922 | An explicit endpoint is the one used, exactly when it fits; otherwise the first test it fails is reported |
| RouteChoice.ExplicitUnknown | src/computecop/app.py:874-875 | A name without a route is reported as unknown |
| RouteChoice.RefusalMeans | src/computecop/app.py:940-1013 | Each error of automatic routing says what it means about the configured routes |
| Routing.BestIsUnique | src/computecop/endpoints.py:403-409 | Over distinct names that member is unique, so the order of the pool does not matter |
| Routing.SelectedIsUsable | src/computecop/app.py:865-938 | Every returned route is not excluded and has traffic allowed, except exactly when the family is unknown and the default route is not usable |
| Routing.RefusedIff | src/computecop/app.py:925-949 | Automatic routing fails exactly when the family is known, no fitting route is allowed and the default is excluded or open; the unknown-family error is never reached |
| Routing.AllOpenIff | src/computecop/app.py:951-1013 | The final error arises exactly when routing fails although fitting non-excluded routes exist, and all of those are then open |
| Routing.DiagnosisFindsFitting | src/computecop/app.py:963-1003 | The diagnosis, written a second time, finds a fitting route exactly when the selection's own filter would |
| Failover.Forward | src/computecop/app.py:560-692 | Terminates after at most as many retries as routes, each after a retryable failure with another route left; the last pass decides the reply (answer, stream, failure, no route, propagated exception) as its route and upstream say; no endpoint is contacted twice; every contact records exactly one breaker outcome, bar the last one when another exception propagates from it; slots are acquired only empty-handed, contacts made only while holding, and released only by the holder; all governor counters end as they began; a refused explicit choice records one failure with no contact |
| Failover.TryOnce | src/computecop/app.py:563-692 | One pass answers as its route and upstream say, with every promise kept, or goes on after a retryable failure with exactly one more failed endpoint |
| Failover.RetriesExclude | src/computecop/app.py:645-668 | After n retries over a known family n distinct configured routes have failed, so n is at most their number |
| Failover.EndlessIff | src/computecop/app.py:645-668 | Some upstream behaviour keeps the loop retrying for ever if and only if the family is unknown and retries are possible |
| Failover.Attempt | src/computecop/app.py:605-692 | The buffered pass acquires, contacts, records and releases in this order for each outcome |
| Failover.RecordRefusal | src/computecop/app.py:638-643 | A refusal records a failure exactly for an explicit endpoint |
| Failover.OpenStream | src/computecop/app.py:584-603 | The streaming branch returns with the slot already given back |
| Failover.StreamingReleasesTwice | src/computecop/app.py:1016-1035 | Whatever other requests do in between, the second release leaves the endpoint counter one below what the others account for, exactly unless none of them holds a slot there when the stream ends |
| Failover.StreamUnbalanced | src/computecop/app.py:1016-1035 | A streamed request releases once more than it acquires |
| HostMemory.YieldLeavesFree | src/computecop/platform.py:26-43 | The yield threshold leaves free what the host size calls for, bounded by the configured percentage and by 65 |
| HostMemory.RecoverIsGreatest | src/computecop/platform.py:45-54 | The recovery threshold is the greatest percentage within the configured one and the gap, but at least 40 |
| HostMemory.ScaleIs | src/computecop/platform.py:56-62 | The budget scale is proportional to memory below 12 GiB, at least one half |
| HostMemory.RecoverBelowYield | src/computecop/platform.py:37-54 | For every host and valid configuration recovery lies strictly below yield, by at least the smaller of the gap and ten points |
| HostMemory.FullGapIff | src/computecop/platform.py:45-54 | The full gap is kept exactly when the yield threshold less the gap is at least 40 |
| HostMemory.FullGapCanBeMissed | src/computecop/platform.py:54-54 | A configuration that keeps 25 of 30 points |
| HostMemory.CapIsUpperBoundIff | src/computecop/platform.py:37-43 | The configured percentage bounds the threshold exactly when it is at least 65 or the host size is unknown |
| HostMemory.LargerHostToleratesMoreIff | src/computecop/platform.py:27-43 | Under every configured percentage a larger host yields at no lower percentage, exactly unless the two hosts lie close together across the 8 or 16 GiB step |
| HostMemory.LargerHostKeepsMoreIff | src/computecop/platform.py:27-43 | Under every configured percentage a larger host yields at no less memory in use, exactly unless the two lie on either side of 8 GiB and differ by less than 0.25 GiB, or of 16 GiB and by less than 0.5 GiB |
| HostMemory.LargerHostMayKeepLess | src/computecop/platform.py:27-43 | An 8.125 GiB host yields at less memory in use than an 8 GiB one |
| HostMemory.LargerHostMayYieldEarlier | src/computecop/platform.py:27-43 | A 9 GiB host yields at a lower percentage than an 8 GiB one |
| Policy.Evaluate | src/computecop/policy.py:96-356 | Each rule is in the trace, triggered exactly when its value meets its own threshold, with its penalty; juice, state, yield flag and the four limits follow in numbers from the trace, RAM and open breakers |
| Policy.CollectRules | src/computecop/policy.py:106-301 | The six rules in order, with their total |
| Policy.ComputeConcurrencyLimits | src/computecop/policy.py:404-471 | The stepwise computation agrees with the composition of its stages |
| PolicyTheorems.ReportLimitsInRange | src/computecop/policy.py:404-471 | Foreground limits stay between 1 and the configured maximum; background limits are within the maximum and zero exactly when the report yields |
| PolicyTheorems.PenaltyIs | src/computecop/policy.py:106-301 | The penalty in closed form over the threshold tests |
| PolicyTheorems.SignalsRise | src/computecop/policy.py:114-301 | Worse telemetry triggers at least the same tests, with no smaller thermal penalty |
| PolicyTheorems.MorePressureNeverGivesMore | src/computecop/policy.py:96-356 | Worse telemetry and no fewer open breakers never raise juice or any of the four limits |
| PolicyTheorems.MorePressureNeverBudgetsMore | src/computecop/policy.py:358-381 | The same for every component of a background budget |
| PolicyTheorems.ForegroundTokensDominate | src/computecop/policy.py:358-381 | No class gets more tokens than a foreground prompt in the same report |
| Policy.HeavyIsFirstFive | src/computecop/policy.py:110-112 | The first five heavy processes count, or all if there are fewer |
| PolicyTheorems.BudgetIs | src/computecop/policy.py:358-381 | Budgets in numbers for every class: juice, token shares with their floors, parallel requests |
| PolicyTheorems.JuiceInRange | src/computecop/policy.py:303-306 | Juice stays between 1 and 100 and the memory scale between one half and one |
| PolicyTheorems.LimitsFall | src/computecop/policy.py:418-455 | A worse state, more triggers and more open breakers never raise a limit |
| Admission.DecisionMeans | src/computecop/admission.py:43-191 | Each decision exactly: prompts always allowed; other work rejected when full, put off at the yield threshold, throttled when the host is tight or the request too large, allowed otherwise |
| Admission.AdmittedBackgroundHasRoom | src/computecop/admission.py:70-191 | Whatever is admitted or throttled outside the foreground has positive background limits in the same report; whatever is yielded has zero ones |
| Admission.AdmissionNeverRelaxes | src/computecop/admission.py:43-191 | Worse telemetry never turns a decision into a more permissive one |
| YieldController.RamYieldController.constructor | src/computecop/yielding.py:30-36 | A fresh controller is inactive and has called nothing |
| YieldController.RamYieldController.Update | src/computecop/yielding.py:43-83 | Turns on exactly at the yield threshold and off exactly at the recovery threshold; every hook is called once, in order, and only on a rise |
| YieldController.ActiveIff | src/computecop/yielding.py:58-74 | Active exactly when some sample reached its yield threshold and none since fell to its recovery threshold |
| YieldController.RisesAreSeparated | src/computecop/yielding.py:58-74 | Between two activations some sample fell to its recovery threshold |
| YieldController.ControllerVersusPolicy | src/computecop/app.py:168-185 | On each sample the controller is active whenever the policy yields; active without the policy yielding exactly when it was active and the sample lies strictly between the thresholds |
| YieldController.AdmissionIgnoresHysteresis | src/computecop/policy.py:342-342 | With the controller still active, background work is admitted again |
| ConfigLayers.DeepMerge | src/computecop/config.py:467-475 | The loop computes the recursive merge |
| ConfigLayers.LeafPaths | src/computecop/config.py:478-488 | Returns exactly the leaf paths |
| ConfigLayers.LeafLeadsToEnd | src/computecop/config.py:478-497 | A path is a leaf exactly when it leads to a scalar or to an empty table |
| ConfigLayers.LoadEffective | src/computecop/config.py:393-420 | Merges the layers in order and attributes every leaf of every layer to the highest layer that contains it |
| ConfigLayers.Provenance | src/computecop/config.py:398-420 | Every leaf of the merge has the value of the highest layer containing that leaf, whatever the shapes |
| ConfigLayers.AttributionIsRight | src/computecop/config.py:402-420 | Every leaf of the merge is attributed, to the layer whose value it carries |
| ConfigLayers.MergeIdempotent | src/computecop/config.py:467-475 | Applying an overlay twice equals applying it once |
| ConfigLayers.EmptyIsNeutral | src/computecop/config.py:467-475 | The empty table is neutral on both sides |
| ConfigLayers.CoveredIff | src/computecop/config.py:467-475 | An overlay hides everything below exactly when it covers every key, recursively |
| ConfigLayers.MergeAssociativeIff | src/computecop/config.py:467-475 | Regrouping three layers keeps the result if and only if no scalar in the middle hides a table that the top re-opens without covering |
| ConfigLayers.RegroupingCanDiffer | src/computecop/config.py:467-475 | Three layers for which regrouping changes the result |
| DecisionStore.RuntimeStateStore.constructor | src/computecop/state.py:109-110 | A fresh store is empty |
| DecisionStore.RuntimeStateStore.RecordDecision | src/computecop/state.py:156-173 | Adds to the bounded history and the index, evicting the oldest, and keeps them agreeing; fails exactly on a zero limit, changing nothing |
| DecisionStore.RuntimeStateStore.DecisionForCorrelationId | src/computecop/state.py:175-177 | A hit is the newest retained decision with the id; while the lookup is complete a miss means there is none |
| DecisionStore.HitsAreNewest | src/computecop/state.py:156-177 | In every run every hit is the newest retained decision with that id, and neither history nor index exceeds the limit |
| DecisionStore.CompleteIff | src/computecop/state.py:156-162 | Recording keeps the lookup complete if and only if it does not evict an id another retained decision carries |
| DecisionStore.DistinctIdsAreFound | src/computecop/state.py:156-177 | When ids retained or recorded together differ, every retained decision is found, after any run |
| DecisionStore.CompleteThroughoutIff | src/computecop/state.py:156-177 | The lookup finds every retained decision at every moment of a run if and only if no id that recurs among retained decisions is evicted by a decision with another id |
| DecisionStore.HistoryIsTail | src/computecop/state.py:156-162 | The history is the tail of the run, newest first |

## Left out

- Composition: worker cancellation in the unprotected windows (scheduler.py:182-185, request_queue.py:224 and 245-249, and between the runner's end and the end of its bookkeeping) can leak counters; cancellation is modelled only while waiting for a slot and inside the runner. A runner that waits for an endpoint slot counts as running here; whom it waits for is `EndpointTraffic.WaitersAreServed`.
- AsyncRequestQueue.RequestQueue.Submit: drawing the deadline, the enqueue time and the sequence number is one step, so enqueue times follow sequence numbers; the clock and the ageing interval are integers.
- AsyncRequestQueue.RequestQueue.Finish: the slot is given back before it, as a step of its own, in `Composition`; suspension points inside change callbacks and worker display updates are not modelled, nor is cancellation during this bookkeeping.
- AsyncRequestQueue.RequestQueue.Pass: the second test of a popped entry for cancellation or expiry cannot fail within one instant and is not repeated; worker cancellation while parked is not modelled.
- QueueTheorems.OnePlacePerRequest: a request whose worker was cancelled is excluded from settlement, because the code never settles it.
- Heapq: heapq is modelled by a binary heap with its contract; the sift orders of CPython are not followed.
- EndpointTraffic.EndpointCountsAreInFlight: streamed requests, whose double release is `Failover.StreamingReleasesTwice`.
- Failover.Forward: what other tasks do to breakers and probes between two awaits is an arbitrary environment rather than the breaker model.
- Failover.Forward: for an unknown family with retries possible the loop need not end, so that case is a precondition; `Failover.EndlessIff` shows it is the only one.
- Routing.CompatibleIsBest: the `prefer_healthy=False` branch, which nothing in routing uses, and the normalising of family aliases.
- RouteChoice.AutomaticPicksBest: floating-point rounding of the failure rate, which decides only shares exactly halfway between two ten-thousandths.
- Policy.Evaluate: floating-point rounding, reason texts and the trace's display fields; the report carries rules, state, juice, flags and limits.
- YieldController.RamYieldController.Update: registering hooks later, and the reason text.
- DecisionStore.RuntimeStateStore.RecordDecision: of the queue snapshot it touches, only the rejected counter.
- ConfigLayers.LoadEffective: profile choice, file and environment parsing, validation, and the dotted-string encoding of paths (paths are key sequences, so keys containing dots do not collide).
- CircuitBreaker.EndpointCircuitBreaker.RecordFailure: wall-clock stamps kept for display; the registry that maps names to breakers.
- The scheduler's counters of immediate and queued executions, the estimate of work cost, snapshots, worker display states and change callbacks: observational only.
- Request classification, token estimation, body shaping, latency histograms, the event log, HTTP transport, telemetry sampling, offload adapters, terminal and web interfaces: plain case analysis or input and output.
