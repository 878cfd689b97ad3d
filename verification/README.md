# Verification of the simulation kernel

A Dafny model of the core of the simulation kernel, and proofs about it.

- **Scheduler and time keeper.** `Queue.dfy` is the ordered event queue. `Kernel.dfy` states what each
  call, one scheduler step and a whole run compute, as functions on values; an entry point or event
  handler is a list of calls. `KernelInvariant.dfy`, `KernelRuns.dfy`, `KernelActivation.dfy`,
  `KernelTheorems.dfy`, `KernelHold.dfy` and `KernelTermination.dfy` prove the time invariant, exact
  activation times, the order of execution, mission and epoch time, both ways to hold, and
  termination; `KernelInside.dfy` carries calls made by a running entry point to the end of its step,
  `KernelImmediate.dfy` immediate events, the start entry point and the automatic stop to their execution.
  `KernelCalls.dfy` says what each call does to the event it names and to the clocks. `KernelLimits.dfy`
  bounds the arithmetic and shows runs outside the assumptions. `Scheduler.dfy` has the classes that are
  updated in place; each method is proved to compute the function that specifies it.
- **Meta-scheduler.** `MetaScheduler.dfy`: activation by phase, on top of the scheduler.
- **Barrier and lockstep.** `Barrier.dfy`: the counters and the class. `BarrierRuns.dfy`: N threads
  interleaved by lock regions. `Lockstep.dfy`: two simulators exchanging snapshots. `DataShare.dfy`: the byte buffer.
- **State vectors.** `StorageText.dfy`: the printed text and the writer. `StorageParser.dfy`: the
  character automaton. `StorageTokens.dfy` and `StorageRoundTrip.dfy`: what the automaton makes of
  printed text, `StorageLayout.dfy` of other text. `HexCodec.dfy`: bytes as hexadecimal digits.
- **Event manager.** `Events.dfy` (functions), `EventTheorems.dfy`, `EventManager.dfy` (the class).
- **FMI value references.** `FieldOrder.dfy`.
- **Life cycle.** `LifeCycle.dfy` (component trees), `Passes.dfy` (the passes over services and models),
  `Census.dfy` (nothing is lost on the way), `Building.dfy` (the simulator), `InitEntryPoints.dfy`, `SimulatorStates.dfy`.

`dafny verify dfyconfig.toml` checks everything.

## Assumptions

- The time invariant is about *legal* calls. A call is legal when the one entry it writes is parked, a
  non-periodic immediate event, or neither in the past nor at the maximum; `CallKeepsGoodIff` shows
  that this is exactly what keeps the invariant, and `DelayFromNowIsLegal` that relative times of at
  least −1 are legal. Legal steps moreover have no event on its last execution re-timing itself, and
  nobody parking the last activable event between the check for one and the time update. Each
  assumption has a lemma in `KernelLimits.dfy` with a run that leaves it, and an if-and-only-if lemma.
- Handlers of the two time-change events are held to the new time while the scheduler still counts from
  the old one: only immediate events, parking, and delays that bridge the gap are legal there.
- `autoStop` is true.
- A call that throws changes nothing, and the entry point that made it goes on.
- Collections of the underlying framework are ordered lists. Removing takes out the first
  occurrence. What a list iteration does when the list changes under it is undefined, except that
  services and models added during a pass are seen by the next pass only.
- A component callback advances its own component to the next state. It may add newly created components
  to its own containers, to the services and to the models.
- Sorting with the field comparison yields a permutation in which no element is less than an earlier one.

## Differences between code and documentation

- `Unsubscribe` is meant to throw for an entry point that is not subscribed, but the exception is only
  created (kern/src/EventManager.cpp:96). The model follows the code.
- `epDeactivate` sets the active flag (colibry/src/MetaScheduler.cpp:318). The model follows the code.
- The parser drops a leading F of the first nested container's name (kern/src/StorageReader.cpp:157-160).
  `RoundTripIff` gives the exact condition. `StorageLayout.dfy` has what else it accepts or misreads.
- An event that is not periodic and gives itself a cycle while it runs is lost (kern/src/Scheduler.cpp:59-73);
  `OwnCycleChange` gives what becomes of every event that changes its own cycle.
- An activation with a time below −1 can be in the past, or park the event (colibry/src/MetaScheduler.cpp:305-313);
  `PhaseIsNegativeIff` gives the exact condition.
- In a handler of a time change, a mission or epoch time asked for and an activation phase are computed
  from the new time but counted from the old one (kern/src/Scheduler.cpp:115-128 and 363).
  `ClockTargetIff` and `ActivationOnGridIff` give the exact conditions.

## Model

| member | source | states |
|---|---|---|
| `ScheduleQueue.LessIsDocumentedOrder` | kern/include/simphonie/kern/Scheduler.hpp:127-135 | `operator<` is the documented order: parked (−1) last, otherwise by time with immediate (−2) first, then by identifier |
| `ScheduleQueue.LessTotal` | kern/include/simphonie/kern/Scheduler.hpp:127-135 | irreflexive, asymmetric, and total on distinct identifiers |
| `ScheduleQueue.LessTransitive` | kern/include/simphonie/kern/Scheduler.hpp:127-135 | transitive, so a strict total order |
| `ScheduleQueue.ReinsertMembers` | kern/src/Scheduler.cpp:130-144 | scheduling a re-keyed element keeps the queue sorted with every identifier at most once; as a set it is the old queue with that identifier overwritten |
| `ScheduleQueue.FindAfterReinsert` | kern/src/Scheduler.cpp:189-202 | the queue refines a map from identifier to entry: lookup after a re-keying |
| `ScheduleQueue.HeadIsLeast` | kern/src/Scheduler.cpp:364-368 | the first element is the least queued one |
| `ScheduleQueue.ReinsertTwice` | kern/src/Scheduler.cpp:204-210 | the second `schedule` call after `setTime` changes nothing |
| `ScheduleQueue.ReplaceMembers` | kern/include/simphonie/kern/Scheduler.hpp:122-123 | overwriting a period or a repeat count in place keeps order and identifiers |
| `ScheduleQueue.SortedUnique` | kern/src/Scheduler.cpp:130-144 | two sorted queues with the same elements are the same queue |
| `KernelInvariant.ApplyEffect` | kern/src/Scheduler.cpp:164-284 | each scheduler and time keeper call overwrites at most the one entry it names; nothing else of queue, time or running state changes |
| `KernelInvariant.CallKeepsGoodIff` | kern/src/Scheduler.cpp:115-284 | a call keeps the time invariant if and only if the entry it writes is parked, a non-periodic immediate, or not in the past and below the maximum |
| `KernelInvariant.DelayKeepsGoodIff` | kern/src/Scheduler.cpp:251-261 | the same as a condition on the delay argument alone, including handlers that still see the old time |
| `KernelInvariant.DelayFromNowIsLegal` | kern/src/Scheduler.cpp:213-261 | delays of at least −1 relative to the current time meet that condition |
| `KernelInvariant.NextTimeIsLeast` | kern/src/Scheduler.cpp:307-317 | the next event time is −1 exactly when everything is parked, else the least activable time, never in the past |
| `KernelInvariant.AdvanceThrowsIff` | kern/src/TimeKeeper.cpp:78-99 | the time update throws if and only if no activable event is left when it asks |
| `KernelInvariant.ReadyGood` | kern/src/TimeKeeper.cpp:78-99 | with legal handlers the update succeeds, the cached time is refreshed, time does not decrease |
| `KernelInvariant.FiringGood` | kern/src/Scheduler.cpp:47-74 | running a due schedule keeps the invariant; simulation stops exactly when the stop entry point ran |
| `KernelRuns.DanglingIff` | kern/src/Scheduler.cpp:383-387 | a schedule is deleted while still queued if and only if it was on its last execution and re-timed itself |
| `KernelRuns.CompletedStaysOut` | kern/src/Scheduler.cpp:371-387 | a completed schedule nobody re-times is never left in the queue |
| `KernelRuns.StepKeepsInvariant` | kern/src/Scheduler.cpp:335-392 | every legal step succeeds, keeps the invariant, never moves time back, and logs at most one execution |
| `KernelActivation.RunKeepsInvariant` | kern/src/Scheduler.cpp:394-400 | over every legal run nothing throws or dangles, the invariant holds, executions are chronological |
| `KernelActivation.StepLogsFired` | kern/src/Scheduler.cpp:364-375 | a step executes exactly the entry it took, due at the new current time |
| `KernelActivation.StepRecords` | kern/src/Scheduler.cpp:47-58 | what is recorded: the identifier and entry point taken from the queue, and simulation, epoch and mission time |
| `KernelActivation.StepStopsIff` | kern/src/Simulator.cpp:588-600 | the run ends if and only if the step executed the stop entry point; no other step changes whether the simulation runs or is executing |
| `KernelActivation.UndisturbedStep` | kern/src/Scheduler.cpp:335-392 | an event nobody addresses stays as it is in a step, or is executed and replaced by its successor |
| `KernelActivation.RunFollowsFate` | kern/src/Scheduler.cpp:47-74 | over a whole run such an event goes through its successors one by one, each executed at its own time |
| `KernelTheorems.ExactActivations` | kern/src/Scheduler.cpp:59-68 | a periodic event executes exactly at its grid times, at most repeat + 1 times, cut off below the maximum and then parked with the remaining repeats |
| `KernelTheorems.AddedEventActivations` | kern/src/Scheduler.cpp:213-220 | the same from the call that adds it: now + offset + k · cycle |
| `KernelTheorems.AddedInsideActivations` | kern/src/Scheduler.cpp:213-220 | the same when the call is made by a running entry point, or by a handler behind it: the offset counts from the time the step has reached |
| `KernelTheorems.ParkedNeverRuns` | kern/src/Scheduler.cpp:364-368 | an event at −1 nobody addresses is never executed |
| `KernelTheorems.FiredIsLeast` | kern/src/Scheduler.cpp:364-368 | the executed entry is the least of the queue it was taken from |
| `KernelTheorems.LesserRunsFirst` | kern/include/simphonie/kern/Scheduler.hpp:127-140 | of two queued events the lesser runs first over the whole run: immediate before timed, earlier before later, and at one time the earlier registered |
| `KernelTheorems.RunKeepsOffsets` | kern/src/TimeKeeper.cpp:53-64 | every execution in a run reads epoch and mission time from the same offsets, if nobody changes them |
| `KernelTheorems.FirstFiringReadsRequestedTime` | kern/src/Scheduler.cpp:213-230 | an event added for a simulation, mission or epoch time first runs when that clock shows it |
| `KernelTheorems.FirstFiringOf` | kern/src/TimeKeeper.cpp:53-64 | the first execution of any queued event is at the time of its entry, and mission and epoch clock then show that time |
| `KernelTheorems.FiringsKeepEntryPoint` | kern/src/Scheduler.cpp:47-58 | over a whole run every execution under an identifier executes the entry point it was scheduled with |
| `KernelTheorems.RunStopsIff` | kern/src/Simulator.cpp:588-600 | over every legal run: it has ended if and only if the stop entry point was executed, which is then the last execution |
| `KernelTheorems.FirstFiringReadsTimeAskedInside` | kern/src/Scheduler.cpp:213-230 | the same as FirstFiringReadsRequestedTime for a call made inside a step |
| `KernelTheorems.ClockTargetIff` | kern/src/Scheduler.cpp:222-230 | exactly when a mission or epoch time becomes the time of the queued event, in any state; in the handlers of a time change it does not |
| `KernelInside.RetimedAtCall` | kern/src/Scheduler.cpp:204-261 | an event re-timed by a running entry point, another’s or its own, is queued at the time asked for when the step ends, whatever was called before |
| `KernelInside.RetimedInside` | kern/src/Scheduler.cpp:204-261 | if nothing else addresses it, it is the same as before the step except for its time |
| `KernelInside.AddedInside` | kern/src/Scheduler.cpp:168-230 | an event added by a running entry point is queued when the step ends, at the time the step has reached plus the delay |
| `KernelInside.StopQueuedInside` | kern/src/Simulator.cpp:351-360 | a hold requested by a running entry point has its stop queued when the step ends |
| `KernelInside.StaysToTheEnd` | kern/src/Scheduler.cpp:371-387 | what a call inside a step writes and nothing addresses behind it is in the queue when the step ends, parking of aperiodic events included |
| `KernelInside.StaysUntilReady` | kern/src/TimeKeeper.cpp:78-99 | what a call before the update of the time, or of a handler before or after the time change, writes and nothing addresses behind it is in the queue when the step picks its entry |
| `KernelHold.HoldImmediately` | kern/src/Simulator.cpp:351-356 | after Hold(true) only immediate events queued before run, then the stop; time stands still and the number of steps is bounded |
| `KernelHold.HoldImmediatelyInside` | mt/src/SimSyncSlave.cpp:34-49 | the same when an entry point, or a handler behind it, holds: counted from the end of that step |
| `KernelHold.HoldImmediatelyByHandler` | fmi/src/FMIBridge.cpp:181-185 | the same when a handler of the time change holds: time stays at the time just reached, the step itself included |
| `KernelHold.HoldDelayedIff` | kern/src/Simulator.cpp:357-360 | Hold(false) queues its stop if and only if one more tick is left before the maximum |
| `KernelHold.EverythingRunsBeforeStop` | kern/src/Simulator.cpp:357-360 | over a whole run: whenever the stop has been executed, so has every event that was queued before its time at any point, whenever it was added |
| `KernelHold.HoldAfterNow` | kern/src/Simulator.cpp:357-360 | after Hold(false) at T the stop runs at T + 1, once and last; before that it stays queued |
| `KernelHold.HoldAfterNowInside` | kern/src/Simulator.cpp:357-360 | the same for Hold(false) inside a step that has reached T |
| `KernelTermination.QuietStepDecreases` | kern/src/Scheduler.cpp:335-392 | a step without further calls executes the stop, queues it, or uses up simulation time |
| `KernelTermination.RunLoopTerminates` | kern/src/Scheduler.cpp:394-400 | without further calls the loop ends from every queue, endless repeats included, and it ends by executing the stop entry point |
| `KernelTermination.LaunchEstablishesInvariant` | kern/src/Simulator.cpp:344-349 | whatever is legally scheduled in standby, a run starts with the invariant, and with the start entry point as the one entry added |
| `KernelImmediate.ImmediateRunsNow` | kern/include/simphonie/kern/Scheduler.hpp:127-140 | over every legal run an immediate event is executed once, at the current time, behind nothing but immediate events queued before it, in a bounded number of steps |
| `KernelImmediate.AddedImmediately` | kern/src/Scheduler.cpp:164-166 | so is one that is added between two steps |
| `KernelImmediate.AddedImmediatelyInside` | kern/src/Scheduler.cpp:164-166 | and one that is added by a running entry point, or by a handler behind it |
| `KernelImmediate.LaunchQueuesStart` | kern/src/Simulator.cpp:344-349 | a run starts with its start entry point queued and otherwise the queue of the standby state, at the time keeper’s time |
| `KernelImmediate.StartRunsFirst` | kern/src/Simulator.cpp:344-349 | over every legal run from there the start entry point is executed exactly once, before every timed event |
| `KernelImmediate.NothingLeftQueuesStop` | kern/src/Scheduler.cpp:350-357 | with nothing activable left a step queues the stop and changes nothing else |
| `KernelImmediate.NothingLeftStops` | kern/src/Scheduler.cpp:350-357 | the next step executes it: standby at the same time, after two steps |
| `KernelCalls.LookupAfterSetTime` | kern/src/Scheduler.cpp:204-261 | exactly which event a re-timing changes and how, and when it is refused; the running event is found first |
| `KernelCalls.LookupAfterSetCycle` | kern/src/Scheduler.cpp:269-277 | likewise a change of cycle, refused for 0 and below −1 |
| `KernelCalls.LookupAfterSetRepeat` | kern/src/Scheduler.cpp:279-284 | likewise a change of repeats |
| `KernelCalls.LookupAfterAdd` | kern/src/Scheduler.cpp:213-230 | likewise an addition, refused with repeats and no cycle or past the last time |
| `KernelCalls.LookupAfterHold` | kern/src/Simulator.cpp:351-360 | likewise a hold |
| `KernelCalls.LookupAfterAddImmediate` | kern/src/Scheduler.cpp:164-166 | likewise an immediate addition |
| `KernelCalls.ClocksAfterCalls` | kern/src/TimeKeeper.cpp:112-131 | what the three clocks show after each call that sets one: mission time counts from the mission start and moves with the epoch |
| `KernelCalls.OwnCycleChange` | kern/src/Scheduler.cpp:59-73 | exactly what becomes of an event that changes its own cycle while it runs: one that was not periodic is lost |
| `KernelLimits.NoOverflow` | kern/src/Scheduler.cpp:59-68 | over every legal run whose calls have 64-bit arguments, re-arming an event overflows in no step |
| `KernelLimits.RearmFits` | kern/src/Scheduler.cpp:59-68 | what is computed for the next activation of any queued event fits |
| `KernelLimits.RunKeeps64` | kern/src/Scheduler.cpp:59-284 | such a run keeps all periods and counts 64-bit values |
| `KernelLimits.DelayFits` | kern/src/Scheduler.cpp:115-128 | neither does what is computed for a relative time |
| `KernelLimits.DelaysFitIff` | kern/src/Scheduler.cpp:222-230 | the difference to a mission or epoch time fits for all non-negative times exactly when that clock is not negative |
| `KernelLimits.ClocksFit` | kern/src/TimeKeeper.cpp:53-64 | the clocks fit at every execution of a run that leaves the offsets alone if they fit at both ends |
| `KernelLimits.StaleHandlerThrows` | kern/src/Scheduler.cpp:363 | limit: zero-delay events added by a PostSimTimeChange handler end in the exception |
| `KernelLimits.ParkingRaceThrows` | kern/src/Scheduler.cpp:350-357 | limit: parking the last activable event between the two lock regions |
| `KernelLimits.LastExecutionDangles` | kern/src/Scheduler.cpp:383-387 | limit: an event on its last execution that re-times itself |
| `KernelLimits.PeriodicImmediateOverflows` | kern/src/Scheduler.cpp:63-68 | limit: re-arming an immediate event that was turned periodic overflows |
| `KernelLimits.LargestTimeIsNotRun` | kern/src/Scheduler.cpp:350-353 | at the largest time nothing is run: the loop holds, and the clock is not moved there |
| `KernelLimits.StoppedPicksNothing` | kern/src/Scheduler.cpp:364 | a loop that was stopped before the step picks its entry runs nothing more |
| `KernelLimits.NotTaken` | kern/src/Scheduler.cpp:350-368 | no legal run comes to either of the two |
| `SchedulerObjects.TimeKeeper.SetMissionTime` | kern/src/TimeKeeper.cpp:126-131 | afterwards the mission clock shows the time set |
| `SchedulerObjects.TimeKeeper.SetEpochTime` | kern/src/TimeKeeper.cpp:112-117 | afterwards the epoch clock shows the time set |
| `SchedulerObjects.TimeKeeper.SetMissionStart` | kern/src/TimeKeeper.cpp:119-124 | mission time counts from the start set, epoch and simulation time stay |
| `SchedulerObjects.Scheduler.ScheduleObject` | kern/src/Scheduler.cpp:130-144 | erase by identifier scan and ordered insertion equal Reinsert, even when the key was changed in place |
| `SchedulerObjects.Scheduler.Rekey` | kern/src/Scheduler.cpp:42-45 | changing the key of a queued element does not change what erasing it leaves |
| `SchedulerObjects.Scheduler.SetScheduleTime` | kern/src/Scheduler.cpp:42-45 | `setTime` on the objects |
| `SchedulerObjects.Scheduler.FindSchedule` | kern/src/Scheduler.cpp:189-202 | the running schedule first, else the queued one, else null |
| `SchedulerObjects.Scheduler.GetAbsoluteTime` | kern/src/Scheduler.cpp:115-128 | −1 parks, a sum at or beyond the maximum throws |
| `SchedulerObjects.Scheduler.AddEvent` | kern/src/Scheduler.cpp:168-187 | a fresh identifier and one more queued entry |
| `SchedulerObjects.Scheduler.AddEventAt` | kern/src/Scheduler.cpp:213-230 | the adding calls, with their two exceptions |
| `SchedulerObjects.Scheduler.SetEventTime` | kern/src/Scheduler.cpp:251-261 | the re-timing calls, with their exception |
| `SchedulerObjects.Scheduler.SetEventCycleTime` | kern/src/Scheduler.cpp:269-277 | in-place change of the period, with its exception |
| `SchedulerObjects.Scheduler.SetEventRepeat` | kern/src/Scheduler.cpp:279-284 | in-place change of the repeat count |
| `SchedulerObjects.Scheduler.Hold` | kern/src/Simulator.cpp:351-360 | both ways to hold, ignored outside the executing state |
| `SchedulerObjects.Scheduler.GetNextScheduledEventTime` | kern/src/Scheduler.cpp:307-322 | an immediate head counts as the cached time |
| `SchedulerObjects.Scheduler.UpdateSimulationTime` | kern/src/TimeKeeper.cpp:78-99 | the clock moves to the queue head between the two events; or it throws, exactly when the head is in the past, and changes nothing |
| `SchedulerObjects.Scheduler.RearmCurrent` | kern/src/Scheduler.cpp:59-68 | count down and next activation before the execution |
| `SchedulerObjects.Scheduler.RunSchedule` | kern/src/Scheduler.cpp:47-74 | `Schedule::run` |
| `SchedulerObjects.Scheduler.Step` | kern/src/Scheduler.cpp:335-392 | one step in place equals the step function, deletion included; when the time update throws, only what was called before it has happened |
| `SchedulerObjects.Scheduler.RunSteps` | kern/src/Scheduler.cpp:394-400 | any number of steps in place equals the run function, so every theorem about runs holds of the objects |
| `SchedulerObjects.Scheduler.Launch` | kern/src/Simulator.cpp:344-349 | on the objects, as LaunchQueuesStart says |
| `SchedulerObjects.Scheduler.RunLoop` | kern/src/Scheduler.cpp:394-400 | the loop itself terminates, in standby, by the stop entry point, with the invariant, and is some number of steps of the run function |
| `MetaScheduling.PhaseIsUniqueDelay` | colibry/src/MetaScheduler.cpp:305-313 | the phase formula gives the unique delay in [0, cycle) that lands on the grid |
| `MetaScheduling.PhaseIsNegativeIff` | colibry/src/MetaScheduler.cpp:305-313 | for every offset the formula lands on the grid; it is negative exactly when the offset lies before the start of the current cycle by other than whole cycles |
| `MetaScheduling.NegativeOffsetMisses` | colibry/src/MetaScheduler.cpp:305-315 | limit: such an offset times the event in the past, or parks it |
| `MetaScheduling.QueuedStaysOnGrid` | colibry/src/MetaScheduler.cpp:305-315 | from any state in which it is queued at its next grid time, a schedule runs at exactly the grid points |
| `MetaScheduling.SwitchRetimes` | colibry/src/MetaScheduler.cpp:296-321 | an activation or deactivation, between two steps or inside one, queues the event at the delay asked for |
| `MetaScheduling.ActivatedStaysOnGrid` | colibry/src/MetaScheduler.cpp:296-316 | activated while parked, between two steps or inside one, a schedule runs at exactly the grid points from then on |
| `MetaScheduling.ActivateThenDeactivate` | colibry/src/MetaScheduler.cpp:296-321 | from the activation to the end of the step that deactivates, executions cover the grid; after that there is none and it is parked as before |
| `MetaScheduling.StaysOnGrid` | colibry/src/MetaScheduler.cpp:296-321 | over any number of activations and deactivations, each between two steps or by an event inside one, it keeps to one grid and runs only while activated |
| `MetaScheduling.ActivatedRunsNow` | colibry/src/MetaScheduler.cpp:300-315 | activated while parked, a schedule without a positive cycle, or whose time is −1, is executed at the time of its activation: once without a cycle, and parked again with one repeat fewer |
| `MetaScheduling.ActivationOnGridIff` | colibry/src/MetaScheduler.cpp:305-315 | limit: where an activation lands in any state; from a handler of a time change on the grid exactly when time moved by whole cycles |
| `MetaScheduling.MetaSchedule.EpActivate` | colibry/src/MetaScheduler.cpp:296-316 | the call it makes on the scheduler; ActivatedStaysOnGrid and ActivatedRunsNow say what that achieves |
| `MetaScheduling.MetaSchedule.EpDeactivate` | colibry/src/MetaScheduler.cpp:317-321 | parks the event and, as in the code, leaves the active flag set |
| `MetaScheduling.MetaSchedule.SubmitFirst` | colibry/src/MetaScheduler.cpp:187-196 | first submission: an event at its offset, or parked when inactive; unless that throws, the changes are no longer marked |
| `MetaScheduling.MetaSchedule.AdditionAdds` | colibry/src/MetaScheduler.cpp:187-196 | the event a first submission adds: entry point, time, cycle and repeats of the schedule; and when it is refused |
| `MetaScheduling.MetaSchedule.SubmitAgain` | colibry/src/MetaScheduler.cpp:197-213 | later submissions forward exactly the changed attributes, in order; which call throws, what was forwarded by then, and that the changes then stay marked |
| `MetaScheduling.MetaSchedule.ForwardedOverwrites` | colibry/src/MetaScheduler.cpp:197-213 | the event after a later submission: the changed attributes overwritten, up to the first one refused |
| `BarrierCounters.Barrier.Enter` | sys/src/Barrier.cpp:28-49 | the first lock region of `wait`, on the fields |
| `BarrierCounters.Barrier.Check` | sys/src/Barrier.cpp:40-49 | the lock region after a wake-up |
| `BarrierCounters.Barrier.Cancel` | sys/src/Barrier.cpp:51-55 | cancellation |
| `BarrierCounters.Barrier.Reset` | sys/src/Barrier.cpp:57-65 | reset |
| `BarrierRuns.StepKeepsSafe` | sys/src/Barrier.cpp:28-65 | every lock region of any interleaving of N threads keeps the counter invariant |
| `BarrierRuns.RunStaysSafe` | sys/src/Barrier.cpp:28-65 | over every run: no lost wake-up, and the numbers of successful waits of any two threads differ by at most one |
| `BarrierRuns.PassMeansAllArrived` | sys/src/Barrier.cpp:40-48 | a wait returns true only after all N threads arrived for its generation |
| `BarrierRuns.CanceledUntilReset` | sys/src/Barrier.cpp:51-65 | after `cancel` no wait returns true until `reset`, and nobody stays asleep |
| `BarrierRuns.SomeoneCanMove` | sys/src/Barrier.cpp:28-49 | no reachable state has all threads blocked |
| `BarrierRuns.GenerationsAdvance` | sys/src/Barrier.cpp:28-49 | enough productive steps complete any number of generations |
| `Lockstep.StepKeepsInv` | mt/src/SimSyncMaster.cpp:90-105 | each step of either `sync`, and each lock region of the barrier, keeps the exchange invariant |
| `Lockstep.BoundedSkew` | mt/src/SimSyncMaster.cpp:90-100 | in every interleaving the k-th snapshot loaded is the peer’s k-th or (k+1)-th, up to one more per wait that a cancellation failed |
| `Lockstep.SkewWithoutCancel` | mt/src/SimSyncSlave.cpp:34-43 | in every run from the start, resets included: whenever the barrier is not canceled, no wait failed since the last reset and it is exactly the k-th or the (k+1)-th |
| `Lockstep.WindowIsTight` | mt/src/SimSyncMaster.cpp:90-100 | each of the two occurs in a run from the start |
| `DataShare.SplitConcat` | mt/src/SimSyncDataShare.cpp:84-104 | cutting a buffer at the sizes of the fields undoes joining them |
| `DataShare.Share.RetrieveData` | mt/src/SimSyncDataShare.cpp:84-93 | the values of the outputs, joined |
| `DataShare.Share.LoadData` | mt/src/SimSyncDataShare.cpp:95-104 | each input gets its part |
| `DataShare.Transfer` | mt/src/SimSyncDataShare.cpp:84-121 | a whole transfer gives each input the value of the output it is connected to |
| `StorageText.StorageWriter.StoreContainers` | kern/src/StorageWriter.cpp:92-96 | the writer appends exactly the printed text and restores its indentation |
| `StorageText.StorageWriter.StoreContainer` | kern/src/StorageWriter.cpp:78-90 | one container |
| `StorageText.StorageWriter.StoreComponent` | kern/src/StorageWriter.cpp:51-76 | one component: field block, then nested containers |
| `StorageText.StorageWriter.WriteIndent` | kern/src/StorageWriter.cpp:45-49 | four blanks a level |
| `StorageText.PrintedText` | kern/src/StorageWriter.cpp:50-90 | the text of a container with a component and a field, whatever their names and value |
| `StorageText.Alphabets` | kern/include/simphonie/kern/StorageReader.hpp:84-92 | names are made of the letters and digits, values of the hexadecimal digits; what is skipped |
| `StorageParser.IndentIsBlank` | kern/src/StorageWriter.cpp:45-49 | the indentation is four blanks a level |
| `StorageParser.SkipBlanks` | kern/src/StorageReader.cpp:85-222 | between tokens any white space changes nothing |
| `StorageParser.ParseText` | kern/src/StorageReader.cpp:68-247 | the parsing loop equals the run of the character automaton |
| `StorageTokens.RunFields` | kern/src/StorageReader.cpp:186-222 | a block of field lines is read into the open component |
| `StorageTokens.RunShortName` | kern/src/StorageReader.cpp:157-185 | a name that is a beginning of the word Fields is taken for it |
| `StorageTokens.FirstNameRead` | kern/src/StorageReader.cpp:157-176 | any other name loses a leading F there |
| `StorageTokens.LongNameThrows` | kern/src/StorageReader.cpp:177-246 | a name that continues the word Fields ends in the exception |
| `StorageRoundTrip.RunComponent` | kern/src/StorageReader.cpp:132-156 | one printed component, from push to pop of the parent stack |
| `StorageRoundTrip.RunNested` | kern/src/StorageReader.cpp:150-185 | the nested containers of a component, where the word Fields is also expected |
| `StorageRoundTrip.ParsePrinted` | kern/src/StorageReader.cpp:68-247 | what parsing returns for every printed tree with valid names and values, with the parent stack back at the root |
| `StorageRoundTrip.RoundTripIff` | kern/src/StorageReader.cpp:150-176 | parsing undoes printing if and only if no component’s first nested container has a name starting with F |
| `StorageRoundTrip.LeadingFIsLost` | kern/src/StorageReader.cpp:157-160 | limit: a letter is lost |
| `StorageRoundTrip.ShortNameIsDropped` | kern/src/StorageReader.cpp:157-188 | limit: a container disappears |
| `StorageRoundTrip.LongNameIsRefused` | kern/src/StorageReader.cpp:177-246 | limit: the text is refused |
| `StorageRoundTrip.ForeignTextIsNotParsed` | kern/include/simphonie/kern/StorageReader.hpp:84-92 | no text with any other character, an underscore for one, is ever parsed |
| `StorageLayout.EqualIsOptional` | kern/src/StorageReader.cpp:109-149 | an equal sign behind a name may be left out |
| `StorageLayout.BraceIsOptional` | kern/src/StorageReader.cpp:111-186 | an opening brace may be left out |
| `StorageLayout.WordIsOptional` | kern/src/StorageReader.cpp:150-183 | the word Fields may be left out |
| `StorageLayout.FieldsNeedsItsEqual` | kern/src/StorageReader.cpp:177-205 | limit: without its equal sign the word sticks to the name of the first field |
| `StorageLayout.NameNeedsItsBlank` | kern/src/StorageReader.cpp:100-119 | limit: without the blank behind its name an empty container is forgotten |
| `StorageLayout.FieldNeedsItsBlank` | kern/src/StorageReader.cpp:197-222 | limit: without the blank behind its name a field overwrites the one before |
| `StorageLayout.LoneLetterIsABlock` | kern/src/StorageReader.cpp:157-196 | limit: a letter F alone is taken for an empty field block |
| `StorageLayout.RunAnyValue` | kern/src/StorageReader.cpp:208-222 | a value of letters and digits is accepted if and only if one of them is hexadecimal |
| `StorageLayout.PlacesAgree` | kern/src/StorageReader.cpp:113-135 | the two states between components read the same |
| `StorageLayout.EndOfText` | kern/src/StorageReader.cpp:85-88 | the end of the text is noticed only between containers |
| `StorageLayout.EndOfTextIsMissed` | kern/src/StorageReader.cpp:85-88 | limit: text that ends behind a nested container is accepted |
| `StorageLayout.RootIsClosed` | kern/src/StorageReader.cpp:94-98 | limit: a brace too many is accepted, and what follows is added to a parent that does not exist |
| `HexCodec.ByteRoundTrip` | kern/src/StorageWriter.cpp:28-33 | the two digits of a byte give the byte back |
| `HexCodec.DigitsOfByte` | kern/src/StorageWriter.cpp:28-33 | the high digit comes first |
| `HexCodec.WhiteSpace` | kern/src/StorageReader.cpp:49-58 | what formatted extraction skips |
| `HexCodec.RestoreUndoesStore` | kern/src/StorageReader.cpp:49-58 | what was stored is restored, whatever white space lies between the digits |
| `HexCodec.StoreUndoesRestore` | kern/src/StorageReader.cpp:49-58 | storing what was restored gives the same digits |
| `HexCodec.StoredIsValue` | kern/include/simphonie/kern/StorageReader.hpp:90-92 | a stored field is a value the parser accepts |
| `HexCodec.ByteWriter.Store` | kern/src/StorageWriter.cpp:28-33 | the loop over the buffer |
| `HexCodec.ByteReader.Restore` | kern/src/StorageReader.cpp:49-58 | the loop that fills the buffer |
| `HexCodec.Copy` | kern/src/StorageWriter.cpp:28-33 | a buffer stored and restored is unchanged |
| `Events.EmissionsAreSnapshots` | kern/src/EventManager.cpp:113-151 | under any nesting, as long as no change reaches a collection under iteration, each emission executes exactly those subscribed at its start, once each and in order |
| `Events.IterateKeeps` | kern/src/EventManager.cpp:124-128 | the loop over the live collection executes the whole collection it began with |
| `EventTheorems.CalmIffUndisturbed` | kern/src/EventManager.cpp:66-151 | under any nesting, no change reaches such a collection if and only if each change is, where it takes effect, not of an event under emission, or refused, or without effect; then all emissions are snapshots |
| `EventTheorems.ChangeAllGoIff` | kern/src/EventManager.cpp:136-149 | the changes carried out at the end of an emission disturb no outer one exactly when each is harmless at its start |
| `EventTheorems.SingleEmission` | kern/src/EventManager.cpp:113-151 | an emission that is not nested executes its subscribers, and the registry is then the old one with the requests carried out in order |
| `EventTheorems.SubscriptionCount` | kern/src/EventManager.cpp:136-149 | how often an entry point is subscribed after the requests |
| `EventTheorems.IdentifiersAreStable` | kern/src/EventManager.cpp:46-64 | a name keeps its identifier over every run, and no other name gets it |
| `EventTheorems.QueriesAnEvent` | kern/src/EventManager.cpp:46-64 | a new name gets the next identifier and an event without subscribers; a known or empty one changes nothing |
| `EventTheorems.SubscribesAtOnce` | kern/src/EventManager.cpp:66-88 | outside an emission: exactly which subscription is accepted, that it appends the entry point and does nothing else, and which exception the others end in |
| `EventTheorems.UnsubscribesAtOnce` | kern/src/EventManager.cpp:90-111 | an unsubscription takes out the first occurrence and does nothing else |
| `EventTheorems.SubscribedIsExecuted` | kern/src/EventManager.cpp:66-151 | the next emission executes those subscribed before and then the new one |
| `EventTheorems.UnsubscribedIsNotExecuted` | kern/src/EventManager.cpp:90-151 | or those left when one was taken out |
| `EventTheorems.SubscribedTwice` | kern/src/EventManager.cpp:66-88 | limit: two requests during one emission subscribe an entry point twice |
| `EventTheorems.NestedEmissionEndsPostponement` | kern/src/EventManager.cpp:133-150 | limit: after a nested emission the next change breaks the outer iteration |
| `EventTheorems.UnknownEventPostpones` | kern/src/EventManager.cpp:118-132 | limit: an emission of an unknown event leaves subscriptions put off |
| `EventManagement.EventManager.constructor` | kern/src/EventManager.cpp:33-41 | predefined events get the identifiers 1, 2, … in order |
| `EventManagement.EventManager.QueryEventId` | kern/src/EventManager.cpp:46-64 | on the fields, with its exception |
| `EventManagement.EventManager.Subscribe` | kern/src/EventManager.cpp:66-88 | on the fields, with its two exceptions; SubscribesAtOnce and SingleEmission say what that achieves |
| `EventManagement.EventManager.Unsubscribe` | kern/src/EventManager.cpp:90-111 | on the fields; nothing is thrown for an entry point that is not subscribed |
| `EventManagement.EventManager.Emit` | kern/src/EventManager.cpp:113-151 | on the fields, with handlers that call the manager again |
| `FieldOrder.CompareFields` | fmi/src/FMIBridge.cpp:207-237 | climbing both hierarchies and walking back equals the comparison of the two chains |
| `FieldOrder.ToldApartIff` | fmi/src/FMIBridge.cpp:218-237 | two fields are ordered one way or the other, or equal, if and only if no equal names clash where their chains part |
| `FieldOrder.SiblingsDecide` | fmi/src/FMIBridge.cpp:207-237 | of two siblings or what is below them: a field comes before all that is below another, and otherwise the names of the siblings decide |
| `FieldOrder.NameLessIff` | fmi/src/FMIBridge.cpp:232-237 | a name comes before those it begins, and otherwise the first difference decides |
| `FieldOrder.LessIsLexicographic` | fmi/src/FMIBridge.cpp:207-237 | with distinct sibling names: the lexicographic order of (goes on below, name) along the path from the root |
| `FieldOrder.LessIsStrictTotal` | fmi/src/FMIBridge.cpp:207-237 | hence a strict total order |
| `FieldOrder.TableIsCanonical` | fmi/src/FMIBridge.cpp:44-51 | the sorted reference table does not depend on the order of collection |
| `FieldOrder.EqualSiblingNames` | fmi/src/FMIBridge.cpp:50-51 | limit: with two siblings of one name it is not even an order for sorting |
| `LifeCycle.VisitSucceedsIff` | kern/src/Simulator.cpp:208-328 | publishing, configuring or connecting a tree throws if and only if its root is not behind the stage or a component is ahead of its parent; otherwise every component, late additions included, has its callbacks once each and in order |
| `LifeCycle.VisitReachesAll` | kern/src/Simulator.cpp:208-328 | the tree then holds exactly the components it held and those added on the way, all at that stage |
| `LifeCycle.VisitReach` | kern/src/Simulator.cpp:208-328 | no visit loses or duplicates a component, nor one that is still to be added |
| `Census.InsertPlaces` | kern/src/Simulator.cpp:208-328 | a child is added at its place, and the others keep theirs |
| `Census.VisitCount` | kern/src/Simulator.cpp:208-328 | what a visit adds, below a component, to the services or to the models, is exactly what the callbacks up to the stage announced |
| `Building.Simulator.DoPublish` | kern/src/Simulator.cpp:208-230 | the recursion on publish |
| `Building.Simulator.DoConfigure` | kern/src/Simulator.cpp:268-291 | the recursion on configure, which publishes first where needed |
| `Building.Simulator.DoConnect` | kern/src/Simulator.cpp:304-328 | the recursion on connect, which configures first where needed |
| `Passes.RoundsIff` | kern/src/Simulator.cpp:242-255 | publishing the services in rounds throws exactly when a created one has a component ahead of its parent; else all end published, those added in between included |
| `Passes.PublishAllIff` | kern/src/Simulator.cpp:233-266 | Publish throws exactly in that case or when a model is not behind; else all services and all models there are by then are published |
| `Passes.BothPassesIff` | kern/src/Simulator.cpp:293-342 | Configure and Connect throw exactly when something in a list is not behind the stage or out of order; else the services, and the models there are once the services were visited, reach it |
| `Passes.BuildSucceedsIff` | kern/src/Simulator.cpp:208-342 | the three in turn throw nothing exactly when the models are created, no service is beyond publishing, and no component is ahead of its parent |
| `Passes.BuildConnects` | kern/src/Simulator.cpp:208-342 | then every service and model there was when Connect began, late additions included, and every model added while the services connect, is connected with all its tree |
| `Passes.BuildConnectsInitial` | kern/src/Simulator.cpp:208-342 | in particular the trees the three calls started from |
| `Census.PassesKeepEverything` | kern/src/Simulator.cpp:233-342 | each of Publish, Configure and Connect keeps every component there was or was announced, exactly as often, in the list or below the component where it was put |
| `Census.BuildKeepsEverything` | kern/src/Simulator.cpp:208-342 | and so do the three in turn |
| `Building.Simulator.PublishServices` | kern/src/Simulator.cpp:242-255 | the rounds on the lists equal their function, and terminate |
| `Building.Simulator.Publish` | kern/src/Simulator.cpp:233-266 | the lists afterwards, or the exception; nothing in another state |
| `Building.Simulator.Configure` | kern/src/Simulator.cpp:293-302 | likewise |
| `Building.Simulator.Connect` | kern/src/Simulator.cpp:330-342 | likewise, with the state of the simulator |
| `Building.Simulator.Build` | kern/src/Simulator.cpp:208-342 | the three in turn on the lists: exactly when they throw nothing, and everything connected as in BuildConnects and BuildConnectsInitial |
| `InitEntryPoints.InitialisingIgnoresCalls` | kern/src/Simulator.cpp:193-206 | while entry points are executed every call is refused or ignored |
| `InitEntryPoints.EntryPointsAreConserved` | kern/src/Simulator.cpp:193-206 | over any run each entry point offered while building, connecting or in standby is executed by exactly one initialisation or is still pending, in the order of the offers; no other ever is |
| `InitEntryPoints.InitialiseEmpties` | kern/src/Simulator.cpp:196-204 | an initialisation executes all that is pending and leaves nothing |
| `InitEntryPoints.ConnectExecutesOffers` | kern/src/Simulator.cpp:330-342 | with silent handlers the initialisation of a Connect executes, in one batch, what was pending and what the callbacks offered |
| `InitEntryPoints.ConnectExecutesAll` | kern/src/Simulator.cpp:193-342 | whatever the handlers do, if they leave the simulator in standby when it has connected, all accepted up to the end of the callbacks has been executed when Connect returns |
| `InitEntryPoints.CallsLeadOn` | kern/src/Simulator.cpp:344-399 | in which state each call is obeyed, and where it leads |
| `InitEntryPoints.HandlersSeeTheirState` | kern/src/Simulator.cpp:119-181 | an entry point offered by a leave handler is judged by the old state, one offered by an enter handler by the new one |
| `InitEntryPoints.Simulator.AddInitEntryPoint` | kern/src/Simulator.cpp:465-470 | on the fields, with the record of what was offered in which state |
| `InitEntryPoints.Simulator.ChangeState` | kern/src/Simulator.cpp:119-181 | leave handlers in the old state, enter handlers in the new one |
| `InitEntryPoints.Simulator.Initialise` | kern/src/Simulator.cpp:193-206 | the loop over the live collection, then its clearing |
| `InitEntryPoints.Simulator.Execute` | kern/src/Simulator.cpp:330-399 | the calls and the state changes they make |

## Left out

- RemoveEvent: it erases through an iterator it then advances, so what it does is undefined.
- The wait loop of `step` when `autoStop` is false, which pauses while events are activable.
- SetSimulationTime during PreSimTimeChange: the value is overwritten when the handlers return.
- Zulu time, the output fields pushed after an execution, statistics and logging.
- KernelLimits.ClocksFit: epoch offset and mission start are supplied by users and not bounded by the kernel, so that the clocks fit 64 bits is a condition on them. Outside it, and outside the invariant, the model goes on with unbounded integers where the source overflows.
- KernelInside.RetimedInside: calls of the entry point and of the handlers behind it. A call of a handler before the time change sees the same state as one between two steps; for what handlers of the change itself write there are StaysUntilReady, HoldImmediatelyByHandler, ClockTargetIff and ActivationOnGridIff.
- An exception that leaves an entry point or a handler and unwinds the step or the emission.
- SchedulerObjects.Scheduler.RunLoop: the unbounded loop is for entry points that make no calls, as termination needs; with calls RunSteps covers any number of steps.
- SchedulerObjects.Scheduler.Step: takes the calls of handlers and of the entry point as arguments instead of dispatching to them; the handlers of the leave-executing event are calls of the stop entry point’s step.
- SchedulerObjects.Scheduler.Hold: without the wait of a caller on another thread for the end of the run.
- The delayed branch of the meta-scheduler’s cycle change handler, which tests for the wrong case; its immediate schedules.
- Threads, mutexes and condition variables as objects: each lock region is one atomic step, and the body of `sync` is three of them.
- Barrier: a changed threshold, more threads than the threshold, and a reset while a thread is blocked; the counters do not support these.
- Lockstep.BoundedSkew: the exit branch of the slave only leaves the loop; the calls to hold, exit or abort it makes are not modelled.
- Building.Simulator.DoPublish: trees are values, so the update of a component in place and the list of publications are not captured.
- Store and Restore of a whole simulator: the parser consumes the stream from which the fields are then read.
- HexCodec.ByteReader.Restore: a text that ends too early leaves unset characters in the source; here the reader reports failure. Buffers of 2³¹ bytes or more overflow the loop counter of the source.
- Disconnecting, reconnecting, Exit and Abort.
- The text of exceptions; the event manager’s reads its name table with identifiers it does not hold.
- The registries of types, units and links, the tracker, recording, REST, Lua, XML, FMU loading, dynamic libraries and wall-clock synchronisation.
