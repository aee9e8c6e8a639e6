# Resident motion owner, fixed cycle and edge loops

This project models the Orin-side motion software of an excavator and proves
properties of that model over all of its runs. Three groups of source are
modelled, each in the form it has in the source: every stateful object is a
class whose methods change its fields in place, and each method is proved equal
to one step function; the properties are then proved about every sequence of
steps. Nothing was executed.

## What is modelled

**The motion owner.** Two policy workers, RL and ACT, may move one machine
through one serial port. `ResidentMotion` is the arbitration of one policy at a
time, `ResidentCommands` the encoder with its shared sequence number,
`ResidentSink` the atomic write boundary and `ResidentIngress` the two adapters
the workers talk to; `ResidentCore` owns them and adds the ACT step budget, the
mission lease and the terminal disarm; `OwnerRelease` is the end of the process: the
last disarm, the wait for its echo, and the port, which is closed in every case.
`ResidentCommandSink.dfy`, `ResidentAdapters.dfy` and `ResidentMotionCore.dfy` are the
objects themselves.

Each public method is one atomic step. The methods of the sink hold its one lock;
those above it enter the sink under locks of their own, most of them once.
`begin_activation` reads the authority under the authority's own lock, so perhaps inside
a method of the sink, and then enters the sink; it is atomic in effect (`Activation`).
`observe_telemetry` is not, and `SplitObservation` proves the invariant of the
owner for its two parts taken apart. A call is given the fate of its serial
write, of which it makes at most one (a flag `ok`); exceptions are values. Beside
the fields the sink keeps two histories: the commands the port accepted and the
rows it observed, those it made up itself included, each row with the number of
commands written before it. `HandoffInvariant` states the invariant over fields and
histories and `SinkPreservation` proves that every call keeps it.
`SinkTheorems`, `MotionClaims`, `HandoffEvidence`, `SampleEvidence`,
`HandoffProgress`, `StaleWorkers`, `InvalidRows`, `HandedRows`, `CoreTheorems`,
`OwnerRuns`, `MissionLease` and `MissionLeaseOverrun` are what follows from it.

One assumption about the environment, *echo causality*, is used only where it is
named: a row that echoes a sequence number is received no earlier than that
command was written. Without it an acknowledgement may raise. A run is *causal*
(`InvalidRows.CausalRun`) if this holds of every row handed in that the sink does not
ignore, and neither such a row nor the current one echoes the number of the next
command; of rows the sink makes up or ignores nothing is asked. `SplitObservation` asks
that a row which echoes the last command as a zero was handed in after it.

**The fixed cycle.** `FixedCyclePlans` is the plan and the checks that make its
lookups defined, `FixedCycle` the state machine of a multi-cycle run, and
`FixedCycleTheorems` gives its state after any number of results in closed form.
`FixedCycleRuntime` composes it with the motion owner it drives; `MissionTheorems`
proves that the two never disagree about an ACT segment as long as nobody calls
start while an ACT stage runs. `MissionRequests` composes the mission with the executor it
asks, `RepeatedStart` builds the run behind its theorem, and `OwnerSteps` is what the owner
does in that run. In this process only the mission claims ACT: the
manual control server is not created when a plan is loaded
(orin_state_sender.py:1857).

**The independent loops.** `Framing` and `DataLink` are the ACT data link,
`Executor` the behavior executor whose event callbacks call back into it,
`FixedActions` the fixed-action servo, `Actions` and `Follow` the slew limiter
over a Follow run, `Trajectory` the waypoint tracker and the tube distance.

## Where the code differs from what one might expect

- A zero that waits for its echo is never sent again, so a handoff completes only
  if its echoes arrive (`HandoffProgress`, `SinkTheorems.PendingZeroIsNotResent`).
- An unsafe row on an active owner revokes it only if the latch is not set
  (`SinkTheorems.UnsafeRowRevokesIffUnlatched`); that the last command is a zero
  holds either way.
- An invalidated row repeats the echo fields of the row before it. It never
  acknowledges a target zero, and a terminal zero exactly if the row before it matched
  already (`InvalidRows.InvalidRowMatchesIff`). Over a run in which no row echoes a
  command before it is written that never happens
  (`InvalidRows.InvalidRowNeverAcknowledges`); otherwise it can
  (`InvalidRows.InvalidRowCanAcknowledge`).
- A submission does not look at the mission lease; ticks and renewals do. Motion stays
  before the deadline exactly if every submission the sink takes comes before it
  (`MissionLeaseOverrun.RunStaysInLeaseIff`). With submissions at most d after a check
  it stays below the deadline plus d (`MissionLease.MissionLeaseBoundsMotion`), and no
  smaller bound holds (`MissionLeaseOverrun.LeaseBoundIsAttained`).
- Completing all requested cycles is not success: the last return to the dig point
  may fail (`FixedCycleTheorems.CompletedCyclesAreNotSuccess`). Success is exactly
  that every stage got a result it accepts.
- A start on an active run is refused, but clears fields of the mission first. It leaves
  the contract about ACT standing exactly outside the ACT stages
  (`MissionTheorems.BusyStartKeepsIffOutsideAct`). In an ACT stage the next tick ends the
  run (`MissionTheorems.SecondStartBreaksAct`); in a follow or dump stage a behavior that
  still waits for RL is forgotten and never sent, and the run stands still
  (`MissionTheorems.SecondStartDropsPending`, `MissionTheorems.DroppedBehaviorIsNeverSent`).
  In every stage it also takes the session and restarts the request numbers: if it repeats
  the run id of a run that has sent a request, the next request is out of order for the
  executor and ends the run, and no request is out of order for any other reason
  (`MissionRequests.OutOfOrderIffSessionReused`, `RepeatedStart.RepeatedStartEndsRun`).
- After a run has ended, no start is ever taken, because the owner is disarmed
  (`MissionTheorems.OneRunPerOwner`).
- The process closes the port whether or not the machine confirmed its last zero; the
  confirmation only decides whether it ends without an error (`OwnerRelease.EndOwner`,
  `OwnerRelease.EndIsCleanIff`). A run can end with a stop that no row ever echoed
  (`OwnerRelease.RunCanEndUnacknowledged`).
- A path segment no longer than 1e-6 is measured by its start alone, which is not always its
  nearest point; all of it lies that close to its start (`Trajectory.ProjectionIsNearest`,
  `Trajectory.ShortStaysNearStart`).
- A dig point named "dump" loads and gets the dump trajectory
  (`FixedCyclePlans.NamedDumpCollides`).
- The documentation of the dual-rate limiter says that any reduction ends startup; a
  reduction to exactly zero does not (`Actions.ReductionEndsStartupIffNonzero`).

## Model

| member | source | states |
|---|---|---|
| ResidentMotion.RouteAcceptsExactly | edge_runtime/resident_motion.py:332-409 | A command other than zero leaves routing exactly for the active policy at the current generation with safety evidence, inside its lease, clock skew and range; everything else is routed as zero with a rejecting reason. |
| ResidentMotion.ResidentMotionAuthority.constructor | edge_runtime/resident_motion.py:155-160 | A new authority is idle at generation 0. |
| ResidentMotion.ResidentMotionAuthority.RequestHandoff | edge_runtime/resident_motion.py:174-196 | Replaces the whole state by the requested handoff: next generation, terminal zero first if a policy is active, else the target zero. |
| ResidentMotion.ResidentMotionAuthority.RequestStop | edge_runtime/resident_motion.py:198-215 | Next generation; idle at once if no policy is active, else a terminal zero without a target. |
| ResidentMotion.ResidentMotionAuthority.AcknowledgeZero | edge_runtime/resident_motion.py:236-290 | Either the acknowledged phase is left in the only allowed direction, or the matching error is raised and the state is untouched, for each of the six reasons. |
| ResidentMotion.ResidentMotionAuthority.RecordHandoffLatency | edge_runtime/resident_motion.py:292-330 | Records a latency only for the active current generation and ordered times; otherwise raises and changes nothing. |
| ResidentCommands.SuccessorWraps | edge_runtime/resident_commands.py:94-94 | The next sequence number is n + 1 modulo 2^32. |
| ResidentCommands.Stm32ResidentCommandEncoder.Synchronize | edge_runtime/resident_commands.py:32-44 | Continues the number the firmware last received, or starts at 0. |
| ResidentCommands.Stm32ResidentCommandEncoder.Encode | edge_runtime/resident_commands.py:46-95 | A line is produced exactly for finite actions that fit the schema, consumes one number, and decodes back, axis by axis, to the same mode and action; a refusal consumes nothing. |
| ResidentCommandSinks.ResidentCommandSink.constructor | edge_runtime/resident_sink.py:187-221 | A new sink is unsynchronized, with nothing pending and an idle authority. |
| ResidentCommandSinks.ResidentCommandSink.WriteLocked | edge_runtime/resident_sink.py:856-908 | A command either reaches the log and the wire as one line that decodes to it, or the failure latches the sink until restart; the sequence number is spent exactly when encoding succeeded. |
| ResidentCommandSinks.ResidentCommandSink.IssuePendingZeroLocked | edge_runtime/resident_sink.py:710-735 | Writes the zero the authority owes and then waits for exactly that one, or clears the wait when none is owed. |
| ResidentCommandSinks.ResidentCommandSink.StopAndZeroLocked | edge_runtime/resident_sink.py:603-612 | Revokes the generation before the zero goes out: authority, lease, evidence, latch and wait are all replaced. |
| ResidentCommandSinks.ResidentCommandSink.RevokeForSafetyLocked | edge_runtime/resident_sink.py:737-756 | The same stop with the safety reason; a revocation that owes no zero raises. |
| ResidentCommandSinks.ResidentCommandSink.Initialize | edge_runtime/resident_sink.py:223-233 | Only the first call synchronizes the sequence with the row; a second raises and changes nothing. |
| ResidentCommandSinks.ResidentCommandSink.RefusalNow | edge_runtime/resident_sink.py:699-708 | The refusal a caller gets is the operational test of the whole state, in the order uninitialized, faulted, disarmed. |
| ResidentCommandSinks.ResidentCommandSink.SafetyPermitsNow | edge_runtime/resident_sink.py:832-854 | Safety evidence is the current row only: fresh, not from the future, and safe in the expected mode. |
| ResidentCommandSinks.ResidentCommandSink.RequestHandoff | edge_runtime/resident_sink.py:251-268 | The whole new sink of a handoff request, including what stays when its write fails. |
| ResidentCommandSinks.ResidentCommandSink.RequestStop | edge_runtime/resident_sink.py:270-280 | The whole new sink of a stop request. |
| ResidentCommandSinks.ResidentCommandSink.RequestSourceStop | edge_runtime/resident_sink.py:282-313 | Stops only for the binding that owns the current generation; for any other the sink is untouched. |
| ResidentCommandSinks.ResidentCommandSink.ExtendEvidence | edge_runtime/resident_sink.py:393-421 | An acknowledged terminal zero opens the measurement of a handoff, an acknowledged target zero completes its zero part. |
| ResidentCommandSinks.ResidentCommandSink.AcknowledgeLocked | edge_runtime/resident_sink.py:379-424 | Exactly the awaited zero moves the authority on, extends the evidence and releases the next owed zero. |
| ResidentCommandSinks.ResidentCommandSink.FirstNonzeroLocked | edge_runtime/resident_sink.py:426-451 | The echo of the first motion after a handoff yields one sample and ends its measurement. |
| ResidentCommandSinks.ResidentCommandSink.SafetyLocked | edge_runtime/resident_sink.py:453-469 | An unsafe row revokes once; a safe row with nothing pending clears the latch. |
| ResidentCommandSinks.ResidentCommandSink.ObserveTelemetryLocked | edge_runtime/resident_sink.py:348-469 | The three phases in order on a row that does not regress; a disarmed or faulted sink keeps the row and nothing else. |
| ResidentCommandSinks.ResidentCommandSink.ObserveTelemetry | edge_runtime/resident_sink.py:315-318 | Observing needs an initialized sink and then is the three phases. |
| ResidentCommandSinks.ResidentCommandSink.InvalidateTelemetry | edge_runtime/resident_sink.py:320-346 | An invalid row is the previous row at a new time without sensor validity. |
| ResidentCommandSinks.ResidentCommandSink.WriteCandidateLocked | edge_runtime/resident_sink.py:550-585 | The command of a candidate and its bookkeeping: lease, first-motion echo, evidence and latch. |
| ResidentCommandSinks.ResidentCommandSink.SubmitCandidate | edge_runtime/resident_sink.py:471-585 | The whole new sink and the truthful result of every submission, for every rejection. |
| ResidentCommandSinks.ResidentCommandSink.WatchdogLocked | edge_runtime/resident_sink.py:613-641 | Silence or unsafe state revokes; an idle active policy is kept alive by zeros; a pending zero is left alone. |
| ResidentCommandSinks.ResidentCommandSink.Tick | edge_runtime/resident_sink.py:587-641 | Foreign leases are dropped, expired ones end motion, then the watchdog runs. |
| ResidentCommandSinks.ResidentCommandSink.TerminallyDisarm | edge_runtime/resident_sink.py:643-697 | Revokes, forgets every lease and wait, and writes one last zero if a mode is known. |
| SinkPreservation.PerformKeeps | edge_runtime/resident_sink.py:223-908 | Every public call, with any row, time and serial outcome, keeps the whole sink invariant: histories, agreement with the authority, dead-man bookkeeping, handoff progress and evidence. |
| SinkPreservation.AckKeeps | edge_runtime/resident_sink.py:379-424 | Acknowledging keeps the invariant and can only fail by a serial fault or an echo from before its own command. |
| SinkPreservation.LeaseIsNeverForeign | edge_runtime/resident_sink.py:596-602 | The branch that drops a lease of another binding or generation is never taken. |
| SinkTheorems.EveryRunKeepsInvariant | edge_runtime/resident_sink.py:184-908 | The invariant holds after any interleaving of calls. |
| SinkTheorems.HistoriesAreFaithful | edge_runtime/resident_sink.py:471-908 | One call appends at most one command, only if the port took it, and a returned result says exactly what was appended. |
| SinkTheorems.EveryHandoffPassesTwoZeros | edge_runtime/resident_sink.py:348-424 | Over every run: between two motions of different generations lies an echoed zero in the old mode and after it an echoed zero of the new generation, on a safe row, in the new mode; one policy moves per generation; the wire mode changes only between two zeros. |
| MotionClaims.EveryMotionFollowsItsClaim | edge_runtime/resident_sink.py:348-424 | Over every run every motion, the first included, was preceded by a zero of its own generation in its own mode that a safe row in that mode echoed. |
| HandedRows.HandoffsRestOnHandedRows | edge_runtime/resident_sink.py:315-424 | Over every causal run the zeros between motions of different generations, and the claim before any motion, were echoed by rows handed in, not by rows the sink made up. |
| SinkTheorems.MotionIsAlwaysLeased | edge_runtime/resident_sink.py:550-585 | While the port works, the last command is motion exactly when a lease is held, and then the owner is active, unlatched, waiting for nothing, and the lease, the authority and the command agree on policy and generation. |
| SinkTheorems.TickStopsUnjustifiedMotion | edge_runtime/resident_sink.py:587-641 | After a tick motion remains only under an unexpired lease with fresh, safe telemetry in the commanded mode. |
| SinkTheorems.RowStopsUnsafeMotion | edge_runtime/resident_sink.py:453-469 | After a row that does not regress motion remains only if that row is safe in the commanded mode. |
| SinkTheorems.InvalidRowIsUnsafe | edge_runtime/resident_sink.py:337-346 | An invalidated row is safe in no mode, so it ends motion. |
| InvalidRows.InvalidRowMatchesIff | edge_runtime/resident_sink.py:334-346 | An invalidated row acknowledges the awaited zero exactly if that is a terminal zero and the row before it matched already. |
| InvalidRows.InvalidRowNeverAcknowledges | edge_runtime/resident_sink.py:320-424 | Over every run in which no row echoes a command before it is written, an invalidated row acknowledges nothing. |
| InvalidRows.InvalidRowCanAcknowledge | edge_runtime/resident_sink.py:320-424 | Otherwise it can: a row that echoes command 1 before it is written lets the row made up after a stop acknowledge it. |
| SinkTheorems.UnsafeRowRevokesIffUnlatched | edge_runtime/resident_sink.py:460-466 | An unsafe row on an active owner revokes the generation if and only if the latch is not already set. |
| SinkTheorems.PendingZeroIsNotResent | edge_runtime/resident_sink.py:613-618 | A zero that waits for its echo is not sent again by a tick. |
| SinkTheorems.DisarmIsFinal | edge_runtime/resident_sink.py:643-697 | After disarm no call changes anything but the current row and the record of rows. |
| SinkTheorems.DisarmedRunNeverWrites | edge_runtime/resident_sink.py:643-697 | ... and so over any sequence of later calls: no write, no re-arming. |
| SinkTheorems.DisarmEndsOnZero | edge_runtime/resident_sink.py:643-697 | Disarm ends on a written zero, or writes nothing because every motion was already echoed to zero; it fails only with the serial port. |
| SinkTheorems.OnlyForeseenErrors | edge_runtime/resident_sink.py:379-451 | The errors of the source that state a broken bookkeeping are unreachable; what remains are refusals, serial faults and an echo from before its command, which echo causality excludes. |
| SinkTheorems.FaultsComeFromTheSerialPort | edge_runtime/resident_sink.py:856-895 | If every write succeeds no run ever faults: whatever routing lets through also passes the encoder. |
| SinkTheorems.CommandsAreNumberedConsecutively | edge_runtime/resident_commands.py:32-95 | Over every run, across mode switches, the i-th command carries start + i modulo 2^32. |
| HandoffEvidence.CallsGrowSamples | edge_runtime/resident_sink.py:426-451 | A call adds at most one sample, and only from a row that echoes the last command, a motion of the current generation, with the number, action and time of that command and its other times in order. |
| SampleEvidence.EverySampleHappened | edge_runtime/resident_sink.py:393-451 | Over every run each sample names two zeros of its own generation that were written and echoed at the times it gives, the first in the mode of the source, the second by a safe row in the mode of the target, and a motion that was written and echoed at its times. |
| HandoffEvidence.OneSamplePerHandoff | edge_runtime/resident_sink.py:792-830 | Over every run there is at most one sample per generation, each with its two zeros in time order. |
| HandoffEvidence.CausalSamplesMeasureUp | edge_runtime/resident_sink.py:120-145 | Over every causal run each sample has all four durations, none negative, and the three parts add up to the total. |
| HandoffEvidence.PayloadIsComplete | edge_runtime/resident_sink.py:956-959 | Without it the payload is computed exactly when the first motion was not echoed before it was written. |
| HandoffProgress.TerminalEchoAdvances | edge_runtime/resident_sink.py:379-424 | A good echo of the terminal zero moves a handoff to the target phase. |
| HandoffProgress.TargetZeroIsLast | edge_runtime/resident_sink.py:710-735 | There the last command is a zero of the current generation in the target mode. |
| HandoffProgress.TargetEchoAdvances | edge_runtime/resident_sink.py:379-469 | A good echo of that zero on a safe row activates the target, unlatched. |
| HandoffProgress.EchoedHandoffCompletes | edge_runtime/resident_sink.py:251-469 | A request on an active owner followed by the two echoes hands over to the requested policy at the next generation. |
| HandoffProgress.TerminalEchoOpensMeasurement | edge_runtime/resident_sink.py:393-412 | The echo of the terminal zero opens the measurement of exactly this handoff. |
| HandoffProgress.TargetEchoCompletesMeasurement | edge_runtime/resident_sink.py:413-421 | The echo of the target zero adds its sequence and time to it. |
| HandoffProgress.FirstMotionIsAwaited | edge_runtime/resident_sink.py:557-579 | The first motion after a measured handoff is remembered with its own sequence, action and time until it is echoed. |
| HandoffProgress.FirstMotionEchoDrawsSample | edge_runtime/resident_sink.py:426-451 | Its echo adds exactly one sample made of the collected evidence and records the latency. |
| HandoffProgress.IdlePolicyIsKeptAlive | edge_runtime/resident_sink.py:613-636 | A tick on an idle active policy writes a zero in its mode exactly when the last command is at least 100 ms old. |
| SinkEffects.SubmitMoves | edge_runtime/resident_sink.py:471-585 | A submission is the only call that logs an accepted command: the candidate itself, for the owner of the current generation. |
| SinkEffects.NeverRearmed | edge_runtime/resident_sink.py:699-708 | Apart from initialization no call makes a sink operational again. |
| StaleWorkers.StaleWorkerCannotInterfere | edge_runtime/resident_ingress.py:91-241 | Nothing an adapter of another generation sends, well formed or not, changes the sink in any phase. |
| StaleWorkers.CurrentViolationRevokes | edge_runtime/resident_ingress.py:91-128 | A malformed packet of the active worker revokes its own generation and zeroes the machine in its mode. |
| ResidentAdapters.ResidentVelocityActionAdapter.BeginActivation | edge_runtime/resident_ingress.py:73-89 | A claim keeps a generation still owned, else requests the next; a refused request leaves the adapter alone. |
| ResidentAdapters.ResidentVelocityActionAdapter.Send | edge_runtime/resident_ingress.py:91-128 | Decoding failures stop the own generation and forget it; otherwise the packet number is kept and its candidate submitted, unless its lease ends past 2^64 ns, which raises and stops nothing. |
| ResidentAdapters.ResidentVelocityActionAdapter.RequestStop | edge_runtime/resident_ingress.py:130-142 | Stops only the generation this adapter holds. |
| ResidentAdapters.ResidentPolicyCandidateAdapter.BeginActivation | edge_runtime/resident_ingress.py:171-187 | The same claim for a policy worker. |
| ResidentAdapters.ResidentPolicyCandidateAdapter.StopOnViolation | edge_runtime/resident_ingress.py:196-205 | The stop of a worker that broke the contract. |
| ResidentAdapters.ResidentPolicyCandidateAdapter.Send | edge_runtime/resident_ingress.py:189-241 | Malformed packets and foreign policies revoke; another generation is turned away locally; the rest is submitted. |
| Activation.BeginActivationIsAtomic | edge_runtime/resident_ingress.py:73-89 | The snapshot may fall inside a call of another thread, between two of its changes of the authority, and further calls may come before the request: a claim is one atomic step all the same, before all of them if the adapter held the machine, after all of them if not. |
| CoreInvariant.SendCandidateKeeps | edge_runtime/resident_ingress.py:189-241 | A policy packet either appends the accepted candidate of the owner of the current generation or moves nothing that callers count on. |
| CoreInvariant.SendVelocityKeeps | edge_runtime/resident_ingress.py:91-128 | The same for an RL packet. |
| CorePreservation.AdvanceKeepsSegment | edge_runtime/resident_core.py:556-613 | One accepted ACT command keeps the conservation of the step budget. |
| CorePreservation.CompletionKeepsCore | edge_runtime/resident_core.py:233-251 | The echo of the last ACT step opens the next generation before the segment is marked complete. |
| CorePreservation.PerformCoreKeeps | edge_runtime/resident_core.py:225-537 | Every call of the motion owner keeps its invariant. |
| CoreTheorems.EveryCoreRunKeepsInvariant | edge_runtime/resident_core.py:124-537 | The invariant of the owner holds after any sequence of calls. |
| CoreTheorems.ActBudgetIsConserved | edge_runtime/resident_core.py:349-384 | Over every run the step count of a segment is the number of accepted commands logged at its generation, at most the budget, and the sum of the last effective step and the quiet ones after it. |
| CoreTheorems.CompletionNeverOverlapsAct | edge_runtime/resident_core.py:267-305 | A control snapshot with a complete segment has moved past its generation and carries a reason its step count bears out. |
| CoreTheorems.LastStepEchoClaimsRl | edge_runtime/resident_core.py:233-251 | The echo of the last ACT step completes the segment and requests the next generation for RL. |
| CoreTheorems.ReleaseIsOnEvidence | edge_runtime/resident_core.py:228-233 | terminal_zero_acknowledged implies that the last command was a zero that came back echoed, or that every motion had been echoed to zero. |
| CoreTheorems.OnlySubmissionsMove | edge_runtime/resident_core.py:225-537 | Only a worker submission adds motion, stamped with its own time on an operational owner; everything else re-arms nothing. |
| SplitObservation.EverySplitRunKeepsInvariant | edge_runtime/resident_core.py:228-251 | The invariant of the owner holds after any interleaving of whole calls and the two parts of observations, if a row echoes only what was written before it. |
| MissionLease.PunctualRunKeepsLease | edge_runtime/resident_core.py:472-512 | With checks in time order an armed owner was last checked before its deadline. |
| MissionLease.MissionLeaseBoundsMotion | edge_runtime/resident_core.py:472-512 | With submissions at most d after a lease check, no motion is written at or after the deadline in force plus d. |
| MissionLeaseOverrun.MovesIffTaken | edge_runtime/resident_core.py:225-537 | A call adds motion exactly if it is a submission whose candidate reaches the sink while nothing is pending, routing accepts it and the port works; then it adds one command, stamped with its own time. |
| MissionLeaseOverrun.InLeaseIffSubmittedInLease | edge_runtime/resident_core.py:349-366 | A call moves the machine only before the deadline in force exactly if, being a submission the sink takes, it comes before the deadline. |
| MissionLeaseOverrun.RunStaysInLeaseIff | edge_runtime/resident_core.py:472-512 | The same over every run: nothing else keeps motion inside the lease. |
| MissionLeaseOverrun.LeaseBoundIsAttained | edge_runtime/resident_core.py:472-512 | For every configuration, lease length and d there is a run within d that moves the machine at the deadline plus d minus 1, on an owner that stays operational: the bound is the least one. |
| MissionLeaseOverrun.MotionHappensAtDeadline | edge_runtime/resident_core.py:472-512 | In particular ACT moves the machine at 500 ms under a lease that ends at 500 ms. |
| MissionLease.DisarmedOwnerIsSilent | edge_runtime/resident_core.py:514-537 | A disarmed owner writes nothing and stays disarmed under any calls. |
| MissionLease.ExpiredLeaseIsFinal | edge_runtime/resident_core.py:490-512 | Once a tick or a renewal sees the expired lease the owner is never operational again. |
| ResidentMotionCores.ResidentMotionCore.constructor | edge_runtime/resident_core.py:133-178 | Owns one sink and both adapters, unarmed. |
| ResidentMotionCores.ResidentMotionCore.Initialize | edge_runtime/resident_core.py:225-226 | Initialization is that of the sink. |
| ResidentMotionCores.ResidentMotionCore.ObserveTelemetry | edge_runtime/resident_core.py:228-251 | The sink takes the row, then the owner follows it. |
| ResidentMotionCores.ResidentMotionCore.FollowRow | edge_runtime/resident_core.py:230-251 | Terminal echo, segment echo and the automatic claim of RL, in that order. |
| ResidentMotionCores.ResidentMotionCore.InvalidateTelemetry | edge_runtime/resident_core.py:253-262 | Invalidation reaches only the sink. |
| ResidentMotionCores.ResidentMotionCore.ActivateRl | edge_runtime/resident_core.py:314-323 | The claim of RL ends a due ACT completion. |
| ResidentMotionCores.ResidentMotionCore.ActivateAct | edge_runtime/resident_core.py:325-347 | A fresh generation starts a fresh segment; the budget of a running one cannot be changed. |
| ResidentMotionCores.ResidentMotionCore.SubmitAct | edge_runtime/resident_core.py:349-384 | A due segment takes no more commands; an accepted one advances by one step. |
| ResidentMotionCores.ResidentMotionCore.SendRl | edge_runtime/resident_ingress.py:91-128 | RL packets go through the RL adapter. |
| ResidentMotionCores.ResidentMotionCore.StopRl | edge_runtime/resident_ingress.py:130-142 | RL stops through its adapter. |
| ResidentMotionCores.ResidentMotionCore.NotifyActWorkerDisconnected | edge_runtime/resident_core.py:441-470 | Losing the worker revokes the generation of its segment if that is still current. |
| ResidentMotionCores.ResidentMotionCore.RenewMissionLease | edge_runtime/resident_core.py:472-499 | Renews an unexpired lease, disarms on an expired one, and refuses lengths outside the bounds. |
| ResidentMotionCores.ResidentMotionCore.Tick | edge_runtime/resident_core.py:501-512 | An expired lease disarms, otherwise the sink is ticked. |
| ResidentMotionCores.ResidentMotionCore.TerminalDisarm | edge_runtime/resident_core.py:514-537 | The first disarm result is kept for good, with what it proves about the last zero. |
| ResidentMotionCores.ResidentMotionCore.RlIsActiveNow | edge_runtime/resident_core.py:190-192 | RL is active exactly in the active phase under its binding. |
| ResidentMotionCores.ResidentMotionCore.ActIsActiveNow | edge_runtime/resident_core.py:194-196 | The same for ACT. |
| OwnerRuns.MethodIsCalls | edge_runtime/resident_core.py:225-537 | Every method of the owner does to the sink what a short sequence of calls of the sink does. |
| OwnerRuns.OwnerRunIsSinkRun | edge_runtime/resident_core.py:225-537 | So the sink of every run of the owner is that of a run of the sink. |
| OwnerRuns.OwnerHandoffsPassTwoZeros | edge_runtime/resident_core.py:225-537 | Over every run of the owner handoffs pass two echoed zeros and every motion follows its claim; if the run is causal, on rows handed in. |
| OwnerRuns.ReleaseRestsOnHandedRows | edge_runtime/resident_core.py:514-554 | Over every causal run a written terminal zero counts as acknowledged only on a row that was handed in after it. |
| OwnerRelease.WaitForTerminalZeroAck | orin_state_sender.py:542-602 | The reading loop succeeds exactly if an in-time row, before any port error, echoes the result, or the result is that of an idle sink; a bad timeout raises. |
| OwnerRelease.WaitAcceptsEchoesOfLast | orin_state_sender.py:592-601 | Its test on rows is, for every run, the echo of the last logged command. |
| OwnerRelease.ReleaseTestIsOnEvidence | orin_state_sender.py:605-614 | Whatever happened before, the test after a disarm is true only on the echo of the last zero, seen by the owner or by the loop, or if nothing was left to stop. |
| OwnerRelease.EndOwner | orin_state_sender.py:2250-2296 | The cleanup disarms an initialized owner and leaves the port closed in every case; its ending is clean, the missing acknowledgement, or what the disarm raised. |
| OwnerRelease.EndIsCleanIff | orin_state_sender.py:2250-2282 | Over every run: the cleanup ends without an error exactly if the disarm returned and the owner had its zero acknowledged, a row reached within 0.6 s echoes the last command, or the result is that of an idle sink; it ends with an error of the disarm exactly if the disarm failed. |
| OwnerRelease.CleanEndHasEvidence | orin_state_sender.py:2250-2282 | Over every run: a clean end left a disarmed owner whose last command was a zero that came back echoed, or one whose motions had all been stopped on the echo of a zero. |
| OwnerRelease.UnechoedStopIsNotAcknowledged | orin_state_sender.py:2250-2296 | A disarm under motion whose zero no row read afterwards echoes ends with the missing acknowledgement, whatever else is read, and no row ever confirmed the stop. |
| OwnerRelease.RunCanEndUnacknowledged | orin_state_sender.py:2250-2296 | A run that ends so, with the port closed all the same. |
| OwnerRelease.OwnerTick | orin_state_sender.py:764-785 | Exit is requested exactly by an initialized owner that is no longer operational and may be released. |
| FixedCyclePlans.LoadedPlanIsSound | edge_runtime/resident_fixed_cycle.py:322-428 | A plan that loads has a trajectory of the right phase for every target, sound groups and a budget in range. |
| FixedCyclePlans.DigPointsDigUnlessNamedDump | edge_runtime/resident_fixed_cycle.py:363-392 | A dig point has a digging trajectory unless it is named like the dump target. |
| FixedCyclePlans.NamedDumpCollides | edge_runtime/resident_fixed_cycle.py:376-392 | A plan with such a point does load. |
| FixedCyclePlans.TargetForArtifact | edge_runtime/resident_fixed_cycle_runtime.py:404-408 | The loop finds the first target that carries the artifact, if one does. |
| ResidentFixedCycles.ResidentFixedCycle.constructor | edge_runtime/resident_fixed_cycle.py:617-623 | A new cycle is idle. |
| ResidentFixedCycles.ResidentFixedCycle.Start | edge_runtime/resident_fixed_cycle.py:629-661 | The whole new state of a start and of each refusal, some of which already replaced the active points. |
| ResidentFixedCycles.ResidentFixedCycle.RecordChildResult | edge_runtime/resident_fixed_cycle.py:663-741 | The whole new state and the directive for every result in every stage. |
| ResidentFixedCycles.ResidentFixedCycle.ReturnToDigPoint | edge_runtime/resident_fixed_cycle.py:755-768 | One more cycle completed; the point rotates except after the last. |
| ResidentFixedCycles.ResidentFixedCycle.Cancel | edge_runtime/resident_fixed_cycle.py:743-746 | Cancels an active run, raises otherwise. |
| ResidentFixedCycles.ResidentFixedCycle.Fail | edge_runtime/resident_fixed_cycle.py:748-753 | Fails an active run, raises otherwise. |
| FixedCycle.RecordKeepsOk | edge_runtime/resident_fixed_cycle.py:663-741 | Every later lookup stays defined and counts stay in range after any result. |
| FixedCycleTheorems.StartIsAtZero | edge_runtime/resident_fixed_cycle.py:629-661 | A start is taken exactly if its arguments are in the plan, and then begins the closed form. |
| FixedCycleTheorems.AcceptedResultAdvances | edge_runtime/resident_fixed_cycle.py:663-741 | An accepted result moves the closed form of the run on by one stage, or completes it at the end. |
| FixedCycleTheorems.OtherResultEnds | edge_runtime/resident_fixed_cycle.py:663-741 | Any other result ends the run without success and without counting a cycle. |
| FixedCycleTheorems.TerminalIsAbsorbing | edge_runtime/resident_fixed_cycle.py:672-673 | A terminal run takes no result. |
| FixedCycleTheorems.EveryRunFollowsTheShape | edge_runtime/resident_fixed_cycle.py:629-781 | Over any results: the children are a prefix of (Follow, ACT, Follow, Execute)^R Follow, or of (Follow, ACT)^R Follow, hence at most 4R + 1 or 2R + 1; the dig point after k cycles is seq[(first + min(k, R - 1)) mod n]; success holds exactly if every stage of the shape got a result it accepts. |
| FixedCycleTheorems.AcceptedPrefixFollowsShape | edge_runtime/resident_fixed_cycle.py:663-741 | Results accepted one by one lead a run along the shape, one stage each, without ending it early. |
| FixedCycleTheorems.EveryStageIsReachable | edge_runtime/resident_fixed_cycle.py:629-741 | Every start that is taken can be led to each stage of its shape and to success, by one accepting result per stage. |
| FixedCycleTheorems.CompletedCyclesAreNotSuccess | edge_runtime/resident_fixed_cycle.py:685-697 | Every start that is taken can complete all its cycles and still fail on the last return to the dig point. |
| MissionInvariant.RecordChildKeeps | edge_runtime/resident_fixed_cycle_runtime.py:304-345 | A recorded result keeps the mission invariant through whatever it dispatches. |
| MissionInvariant.ClaimActOpensSegment | edge_runtime/resident_core.py:325-347 | A claim of ACT that returns a generation leaves the segment of that generation with that budget. |
| MissionTheorems.CompletedSegmentFits | edge_runtime/resident_fixed_cycle_runtime.py:234-260 | A segment the mission claimed and the owner completed always carries a reason and a count the plan accepts. |
| MissionTheorems.PerformMissionKeeps | edge_runtime/resident_fixed_cycle_runtime.py:131-417 | Every call of the mission, the executor and everything else that reaches the owner keeps the composed invariant, except a start in an ACT stage. |
| MissionTheorems.ActContractHolds | edge_runtime/resident_fixed_cycle_runtime.py:234-260 | Over every run without a start in an ACT stage the three failures that would mean disagreement about ACT do not occur, and the budget bounds the accepted commands of the stage. |
| MissionTheorems.FollowSuccessClaimsAct | edge_runtime/resident_fixed_cycle_runtime.py:202-215 | A finished follow with cycles to do claims the next generation for ACT with the budget of the plan. |
| MissionTheorems.OneRunPerOwner | edge_runtime/resident_fixed_cycle_runtime.py:131-156 | A run that ended has closed the owner, so no later start of the process is taken. |
| MissionTheorems.BusyStartKeepsIffOutsideAct | edge_runtime/resident_fixed_cycle_runtime.py:139-155 | A start on an active run is refused, leaves the cycle alone, and leaves the composed invariant standing exactly if the run is not in an ACT stage. |
| MissionTheorems.SecondStartBreaksAct | edge_runtime/resident_fixed_cycle_runtime.py:139-155 | In an ACT stage the refused start makes the next tick end the run with a generation mismatch. |
| MissionTheorems.SecondStartDropsPending | edge_runtime/resident_fixed_cycle_runtime.py:139-171 | In any other stage it forgets the behavior that waits for RL, and a tick then changes nothing. |
| MissionTheorems.DroppedBehaviorIsNeverSent | edge_runtime/resident_fixed_cycle_runtime.py:158-302 | Nothing that happens later sends a forgotten behavior: until something answers a request that was never made, the run stays where it is or ends. |
| MissionRequests.OutOfOrderIffSessionReused | edge_runtime/remote.py:727-745 | Over every run of the mission beside its executor: a request of the mission is found out of order exactly if it is the first since a start, taken or refused, whose run id named a session that had sent a request before; and then it ends the run. |
| MissionRequests.StartAfterRequestIsRefused | edge_runtime/resident_fixed_cycle_runtime.py:139-155 | Once a cycle has left its idle stage a start is refused and leaves the cycle alone. |
| MissionRequests.EveryJointRunIsNumbered | edge_runtime/resident_fixed_cycle_runtime.py:280-302 | Over every run the executor remembers exactly the sessions the mission sent requests in, and for the current one the number the mission counted to, unless the run has ended. |
| MissionRequests.CallAsks | edge_runtime/resident_fixed_cycle_runtime.py:158-302 | A call other than start asks the executor at most once, with the next number; an idle or ended run asks nothing; a request found out of order ends the run. |
| MissionRequests.StartAsks | edge_runtime/resident_fixed_cycle_runtime.py:131-156 | A start takes the session and the numbers anew, taken or refused, and asks at most once. |
| RepeatedStart.RepeatedStartEndsRun | edge_runtime/resident_fixed_cycle_runtime.py:139-155 | For every plan and every start that is taken there is a run in which repeating that start in its first follow, after the request of that follow, ends the run with its next request out of order. |
| ResidentFixedCycleRuntimes.ResidentFixedCycleRuntime.constructor | edge_runtime/resident_fixed_cycle_runtime.py:42-104 | A new mission over an existing owner. |
| ResidentFixedCycleRuntimes.ResidentFixedCycleRuntime.CloseOwner | edge_runtime/resident_fixed_cycle.py:887-891 | The coordinator disarms the owner once per run. |
| ResidentFixedCycleRuntimes.ResidentFixedCycleRuntime.TerminalDisarm | edge_runtime/resident_fixed_cycle_runtime.py:227-232 | Disarming forgets the pending behavior and notes the time only if it succeeded. |
| ResidentFixedCycleRuntimes.ResidentFixedCycleRuntime.FailCoordinated | edge_runtime/resident_fixed_cycle.py:853-857 | The owner is closed before the cycle is failed. |
| ResidentFixedCycleRuntimes.ResidentFixedCycleRuntime.Fail | edge_runtime/resident_fixed_cycle_runtime.py:410-416 | A failure of a run not yet ended. |
| ResidentFixedCycleRuntimes.ResidentFixedCycleRuntime.OnBehaviorRefused | edge_runtime/resident_fixed_cycle_runtime.py:304-345 | A refused request fails the run. |
| ResidentFixedCycleRuntimes.ResidentFixedCycleRuntime.DispatchPendingIfReady | edge_runtime/resident_fixed_cycle_runtime.py:280-302 | Times out, waits, or asks the executor with the next request number. |
| ResidentFixedCycleRuntimes.ResidentFixedCycleRuntime.QueueBehavior | edge_runtime/resident_fixed_cycle_runtime.py:195-225 | One behavior may be pending; RL is claimed if it is not active. |
| ResidentFixedCycleRuntimes.ResidentFixedCycleRuntime.ClaimAct | edge_runtime/resident_fixed_cycle_runtime.py:202-215 | ACT is claimed only with a ready worker and an idle executor. |
| ResidentFixedCycleRuntimes.ResidentFixedCycleRuntime.DispatchDirective | edge_runtime/resident_fixed_cycle.py:872-885 | Each directive reaches its own driver call. |
| ResidentFixedCycleRuntimes.ResidentFixedCycleRuntime.Dispatch | edge_runtime/resident_fixed_cycle.py:859-870 | A dispatch that raises fails the cycle and closes the owner before raising. |
| ResidentFixedCycleRuntimes.ResidentFixedCycleRuntime.RecordChildResult | edge_runtime/resident_fixed_cycle.py:841-847 | A directive is dispatched; an ended run closes the owner. |
| ResidentFixedCycleRuntimes.ResidentFixedCycleRuntime.Start | edge_runtime/resident_fixed_cycle_runtime.py:131-156 | What a start replaces before the lease, the cycle or the dispatch can refuse it. |
| ResidentFixedCycleRuntimes.ResidentFixedCycleRuntime.AdvanceAct | edge_runtime/resident_fixed_cycle_runtime.py:234-269 | The ACT stage from one atomic control snapshot. |
| ResidentFixedCycleRuntimes.ResidentFixedCycleRuntime.Tick | edge_runtime/resident_fixed_cycle_runtime.py:158-171 | An active run advances only on an operational owner. |
| ResidentFixedCycleRuntimes.ResidentFixedCycleRuntime.Heartbeat | edge_runtime/resident_fixed_cycle_runtime.py:173-185 | Renews the lease of an active run. |
| ResidentFixedCycleRuntimes.ResidentFixedCycleRuntime.Cancel | edge_runtime/resident_fixed_cycle_runtime.py:187-192 | Closes the owner before it cancels, even when nothing is active. |
| ResidentFixedCycleRuntimes.ResidentFixedCycleRuntime.OnBehaviorResult | edge_runtime/resident_fixed_cycle_runtime.py:304-345 | A result of the executor is recorded for the stage it belongs to. |
| Framing.HeaderInvertsLength | edge_runtime/resident_data_link.py:329-335 | An accepted length has exactly one header. |
| Framing.DrainThenFeed | edge_runtime/resident_data_link.py:320-345 | Consuming frames before more bytes arrive changes nothing. |
| Framing.ChunkingDoesNotMatter | edge_runtime/resident_data_link.py:269-277 | Any two ways to cut a stream deliver the same candidates and end in the same state. |
| Framing.ParsingConservesBytes | edge_runtime/resident_data_link.py:320-345 | On a good connection the received bytes are the frames of what was delivered plus less than one frame; fewer than 4096 bytes are buffered. |
| Framing.ParsingInvertsFraming | edge_runtime/resident_data_link.py:309-345 | Whole frames deliver exactly their payloads in order. |
| Framing.ParsingStopsAtPartialFrame | edge_runtime/resident_data_link.py:320-345 | Part of one more frame delivers nothing more. |
| Framing.FrameReceiver.Receive | edge_runtime/resident_data_link.py:269-345 | recv and the consuming loop on the buffer in place. |
| DataLink.FreshestIsSent | edge_runtime/resident_data_link.py:251-262 | What a connection begins to send is the newest state, and it idles only when none is newer than the last sent. |
| DataLink.SentKeeps | edge_runtime/resident_data_link.py:278-286 | Any partial send keeps the wire a sequence of whole frames of increasing revisions and one prefix. |
| DataLink.OfferedKeeps | edge_runtime/resident_data_link.py:251-262 | ... and so does taking or replacing a frame while the publisher runs. |
| DataLink.TakeFrame | edge_runtime/resident_data_link.py:251-262 | The top of the serving loop. |
| DataLink.ServeOnce | edge_runtime/resident_data_link.py:250-286 | One turn of the serving loop. |
| DataLink.ServeConnection | edge_runtime/resident_data_link.py:241-286 | The serving loop over any turns. |
| DataLink.ReaderGetsIncreasingStates | edge_runtime/resident_data_link.py:241-345 | End to end, for any partial sends, any publishing and any reads: a reader of the same framing that takes the published states gets exactly published states of strictly increasing revisions. |
| ExecutorTheorems.ApplyKeeps | edge_runtime/remote.py:97-550 | Every method keeps the event stream bracketed and numbered. |
| ExecutorTheorems.TraceIsBracketed | edge_runtime/remote.py:97-765 | Over every run, with callbacks that call back: at most one behavior; feedback and at most one result for each accepted one, right after its own runner is closed; every runner but an active one closed; event numbers without gap; request numbers increasing per session. |
| ExecutorTheorems.RunnerClosedOnce | edge_runtime/remote.py:658-710 | No runner is closed twice. |
| ExecutorTheorems.EndedBehaviorSendsOneResult | edge_runtime/remote.py:658-709 | Whatever ends a behavior closes its runner and sends exactly one result to its own connection, unless it was closed silently. |
| EdgeBehaviorExecutors.EdgeBehaviorExecutor.Emit | edge_runtime/remote.py:747-765 | The event number is taken before the callback runs, and everything the callback does follows it. |
| EdgeBehaviorExecutors.EdgeBehaviorExecutor.Refuse | edge_runtime/remote.py:711-725 | A rejection changes nothing but the stream. |
| EdgeBehaviorExecutors.EdgeBehaviorExecutor.AcceptNumber | edge_runtime/remote.py:727-745 | A request number is accepted exactly if it is larger than all accepted before in its session. |
| EdgeBehaviorExecutors.EdgeBehaviorExecutor.FinishActive | edge_runtime/remote.py:658-709 | The runner is closed and the executor free before the result goes out. |
| EdgeBehaviorExecutors.EdgeBehaviorExecutor.BeginActive | edge_runtime/remote.py:138-162 | The behavior is active before its acceptance goes out. |
| EdgeBehaviorExecutors.EdgeBehaviorExecutor.StartBehavior | edge_runtime/remote.py:97-277 | Both kinds of start, with every rejection in order. |
| EdgeBehaviorExecutors.EdgeBehaviorExecutor.CancelBehavior | edge_runtime/remote.py:305-367 | A cancel finishes only the behavior of its own kind, connection and session, with a later number. |
| EdgeBehaviorExecutors.EdgeBehaviorExecutor.ObserveState | edge_runtime/remote.py:369-510 | A state is recorded, then drives the active behavior to feedback or its end. |
| EdgeBehaviorExecutors.EdgeBehaviorExecutor.Perform | edge_runtime/remote.py:97-605 | Every public method with what its event provokes. |
| FixedActions.LiveAxesPointAtTarget | edge_runtime/fixed_actions.py:190-249 | Whenever the servo moves, in the step it is then in, which is the next one exactly after a hold: latched and untargeted axes are commanded zero, an axis is latched exactly if it was in this step or is now within tolerance, and every other axis is driven toward its target between the action bounds. |
| FixedActions.TrackPointsAtTarget | edge_runtime/fixed_actions.py:210-249 | The same for the part of a step that looks at the targets, alone. |
| FixedActions.TerminalIsSticky | edge_runtime/fixed_actions.py:200-201 | A terminal result is final and commands zero. |
| FixedActionTheorems.CompletedMeansReached | edge_runtime/fixed_actions.py:190-249 | Completion means every targeted axis of every step was seen within tolerance, step after step. |
| FixedActionTheorems.ActionEndsInTime | edge_runtime/fixed_actions.py:190-249 | With accepted observations at most g apart, n steps have ended by t0 plus n times (timeout + hold + g). |
| FixedActionRuntimes.FixedActionRuntime.constructor | edge_runtime/fixed_actions.py:165-188 | A new runtime stands before its first step. |
| FixedActionRuntimes.FixedActionRuntime.Step | edge_runtime/fixed_actions.py:190-249 | One observation, including those that raise and change nothing. |
| FixedActionRuntimes.FixedActionRuntime.Advance | edge_runtime/fixed_actions.py:300-304 | The next step starts unlatched and untimed. |
| FixedActionRuntimes.FixedActionRuntime.TrackTargets | edge_runtime/fixed_actions.py:210-249 | Timeout, latching, hold or servo command for the current step. |
| Actions.SlewApproaches | edge_runtime/actions.py:12-40 | A limited axis moves toward its target by exactly the smaller of the allowed and the remaining distance. |
| Actions.DualAxisMovesAtItsRate | edge_runtime/actions.py:82-99 | An axis in startup with a target farther out moves by the startup rate, any other by the steady one, as far as the target allows. |
| Actions.ReductionEndsStartupIffNonzero | edge_runtime/actions.py:57-111 | A reduction or reversal ends startup exactly if the new target is not zero. |
| Actions.PhysicalKeepsDirection | edge_runtime/actions.py:114-144 | The physical command keeps the direction, stays within the speed limits, and is zero in the deadzone. |
| Actions.PhysicalVelocity | edge_runtime/actions.py:114-144 | The loop computes that for every axis. |
| FollowTheorems.LimitedApproaches | edge_runtime/actions.py:43-111 | One limited command stays within the larger rate and between the last command and the target; startup can only be lost. |
| FollowTheorems.CommandsAreSlewBounded | edge_runtime/follow.py:183-347 | Over a whole run any two commands differ by at most the larger rate times the time between them, the first by at most that rate times 0.05 s from zero, and commands never leave the hull of zero and the targets. |
| FollowTheorems.StartupIsLostForGood | edge_runtime/follow.py:258-347 | An axis that has lost startup never regains it. |
| FollowTheorems.TerminalIsFinal | edge_runtime/follow.py:204-308 | A terminal result is final and outputs zero. |
| FollowTheorems.ActiveMeansInTime | edge_runtime/follow.py:197-226 | An active step is inside the timeout and before completion. |
| EdgeFollowRuntimes.EdgeFollowRuntime.constructor | edge_runtime/follow.py:97-181 | A new run has commanded nothing and every axis in startup. |
| EdgeFollowRuntimes.EdgeFollowRuntime.Step | edge_runtime/follow.py:183-347 | What a step assigns, and what it keeps when it is interrupted. |
| EdgeFollowRuntimes.EdgeFollowRuntime.Track | edge_runtime/follow.py:222-226 | A single endpoint is expanded once, then the tracker advances. |
| EdgeFollowRuntimes.EdgeFollowRuntime.LimitCommand | edge_runtime/follow.py:261-295 | The limiter with the capped time of the first command. |
| EdgeFollowRuntimes.EdgeFollowRuntime.Conclude | edge_runtime/follow.py:242-347 | Command and bookkeeping once the observation is there. |
| Trajectory.TrackerIsExact | edge_runtime/trajectory.py:114-123 | The tracker has reached m waypoints exactly if the observations contain, in order, points within tolerance of the first m. |
| Trajectory.CompletionIsExact | edge_runtime/trajectory.py:114-123 | Completion means exactly that every waypoint was reached in order. |
| Trajectory.ProjectionIsNearest | edge_runtime/trajectory.py:183-192 | The computed distance is that of the nearest point of the segment exactly if the segment is long enough or the point is not on the side of its end. |
| Trajectory.ShortStaysNearStart | edge_runtime/trajectory.py:186-187 | A segment measured by its start lies within 1e-6 of it. |
| Trajectory.TubeRatioTellsInside | edge_runtime/trajectory.py:163-181 | The ratio is 0 without a segment, lies in [0, 1], is below 1 exactly if the point is nearer than the radius to the segment that ends at the current waypoint (or the first), and is there the distance per radius. |

## Left out

- Sockets, threads, select, files, real serial I/O, logging and the audit writers. What
  stays is the atomicity of each lock and a write that may fail.
- JSON text, field and type checks of requests, snapshots and telemetry, identifier
  syntax, digests: their results are typed values or flags.
- OwnerRelease.EndOwner: what the cleanup closes before and after the disarm (servers,
  runners, relays, sockets) is taken to return; a close that raises there is not modelled.
- IEEE floats: finite values are reals, non-finite ones a separate case where the source
  checks for them (actions); squared distances replace square roots.
- Kinematics, the policy network, the 38-value observation and the arc midpoint are inputs.
- ResidentMotionCores.ResidentMotionCore.ObserveTelemetry: one step, where the source
  releases the sink's lock before it takes the owner's. `SplitObservation` covers the
  owner's invariant for the two parts taken apart; the theorems about missions and about
  the mission lease are over whole calls, and what the owner's part reads from the sink
  and its claim of RL are one step everywhere.
- ResidentAdapters.ResidentVelocityActionAdapter.BeginActivation: one step, where the
  source reads the authority before it enters the sink; `Activation.BeginActivationIsAtomic`
  shows that it is one in effect.
- ResidentAdapters.ResidentPolicyCandidateAdapter.BeginActivation: as above.
- ResidentMotionCores.ResidentMotionCore.RenewMissionLease: one step, where the source reads
  the sink's state before it disarms it; likewise the notification of a lost worker and the
  control snapshot.
- The coordinator and the runtime of the fixed cycle are one class here, as each is the
  other's only partner; the read-only trajectory visualization is not part of it.
- MissionRequests.OutOfOrderIffSessionReused: the other clients of the executor are taken
  to use sessions that are no run ids of the mission, and the executor's results to reach
  the mission at any time, whatever they are.
- One call of the mission reads its clocks once; the source may read them several times.
- ResidentMotionCores.ResidentMotionCore.SubmitAct: the audit records of ACT steps are
  not modelled.
- ResidentCommandSinks.ResidentCommandSink.ObserveTelemetryLocked: the audit of command
  echoes is not modelled.
- EdgeBehaviorExecutors.EdgeBehaviorExecutor.Perform: requests without a valid identity,
  which raise before anything happens, are not modelled.
- DataLink.ServeConnection: the accept loop, the second connection that is closed at once
  and the disconnect callback are not modelled.
- DataLink.ReaderGetsIncreasingStates: publish refuses a malformed state by raising; only
  states it accepted are published here.
- Liveness beyond the echoed handoff, deadlock and scheduling.
- `ActionRelay`, CSV replay, edge_runtime/cycle.py, the manual control server, deployment
  scripts and command lines: smaller versions of the same ideas or not about motion.
