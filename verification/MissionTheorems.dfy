/** What the fixed-cycle mission guarantees over every run, composed with the
    motion owner. */
module MissionTheorems {
  import opened Wrappers
  import opened ResidentMotion
  import opened ResidentSink
  import opened ResidentCore
  import opened HandoffInvariant
  import opened SinkEffects
  import opened CoreTheorems
  import opened ResidentIngress
  import opened FixedCyclePlans
  import Cycles = FixedCycle
  import opened FixedCycleRuntime
  import opened MissionInvariant

  /** A segment the mission claimed and the owner completed carries a result the
      cycle accepts. */
  lemma CompletedSegmentFits(cfg: MissionConfig, m: Mission)
    requires MissionOk(cfg, m) && InActStage(m.cycle) && m.core.segment.complete
    ensures m.core.segment.reason.Some?
    ensures Cycles.Accepts(cfg.plan, m.cycle.snapshot.stage, ActResult(m.core.segment))
    ensures !Reserved(ActResult(m.core.segment).reason)
  {}

  lemma SettledAct(cfg: MissionConfig, m: Mission)
    requires MissionOk(cfg, m)
    ensures MissionOk(cfg, m.(actWasActive := true))
    ensures Base(cfg, m.(actGeneration := None, actStartedNs := None))
  {}

  lemma AdvanceActKeeps(cfg: MissionConfig, m: Mission, e: Env)
    requires MissionOk(cfg, m) && EnvOk(e) && InActStage(m.cycle)
    ensures MissionOk(cfg, AdvanceAct(cfg, m, e).m)
  {
    SettledAct(cfg, m);
    if !e.workerReady {
      MissionFailKeeps(cfg, m, e, "ACT_WORKER_UNAVAILABLE");
    } else if m.core.segment.complete {
      CompletedSegmentFits(cfg, m);
      RecordChildKeeps(cfg, m.(actGeneration := None, actStartedNs := None), e, ActResult(m.core.segment));
    } else if !ActIsActive(m.core.sink) {
      if m.actWasActive {
        MissionFailKeeps(cfg, m, e, "ACT_AUTHORITY_LOST");
      } else {
        MissionFailKeeps(cfg, m, e, "ACT_ACTIVATION_TIMEOUT");
      }
    }
  }

  lemma TickMissionKeeps(cfg: MissionConfig, m: Mission, e: Env)
    requires MissionOk(cfg, m) && EnvOk(e)
    ensures MissionOk(cfg, TickMission(cfg, m, e).m)
  {
    if Cycles.Busy(m.cycle) {
      if !Operational(m.core.sink) {
        MissionFailKeeps(cfg, m, e, "RESIDENT_CORE_NOT_OPERATIONAL");
      } else if InActStage(m.cycle) {
        AdvanceActKeeps(cfg, m, e);
        if !AdvanceAct(cfg, m, e).raised {
          DispatchPendingKeeps(cfg, AdvanceAct(cfg, m, e).m, e);
        }
      } else {
        DispatchPendingKeeps(cfg, m, e);
      }
    }
  }

  /** The owner was renewed: the mission with the new core. */
  lemma FollowingCoreKeeps(cfg: MissionConfig, m: Mission, core: Core)
    requires MissionOk(cfg, m) && Follows(cfg.core, m.core, core)
    ensures MissionOk(cfg, m.(core := core))
  {}

  /** What start clears is what the invariant needs in an ACT stage, and only
      there. */
  lemma ClearedKeeps(cfg: MissionConfig, m: Mission, session: string)
    requires MissionOk(cfg, m) && !InActStage(m.cycle)
    ensures MissionOk(cfg, Cleared(m, session))
  {}

  /** A start that is taken dispatches the first follow. */
  lemma StartLeads(p: Plan, c: Cycles.Cycle, a: Cycles.StartArgs, safeRunId: bool)
    requires Cycles.CycleOk(p, c) && c.snapshot.stage.IdleStage?
    ensures var t := Cycles.Start(p, c, a, safeRunId);
      if t.reply.Go? then
        Cycles.Busy(t.cycle) && !InActStage(t.cycle) && !t.reply.directive.RunAct? && t.cycle.snapshot.reason == ""
      else t.cycle.snapshot == c.snapshot
  {}

  lemma StartMissionKeeps(cfg: MissionConfig, m: Mission, e: Env, a: Cycles.StartArgs, safeRunId: bool)
    requires MissionOk(cfg, m) && EnvOk(e) && !InActStage(m.cycle)
    ensures MissionOk(cfg, StartMission(cfg, m, e, a, safeRunId).m)
  {
    var renewal := RenewLease(m.core, cfg.leaseMs, e.now, e.disarmOk);
    var t := Cleared(m, a.runId).(core := renewal.core);
    ClearedKeeps(cfg, m, a.runId);
    RenewFollows(cfg.core, m.core, cfg.leaseMs, e.now, e.disarmOk);
    FollowingCoreKeeps(cfg, Cleared(m, a.runId), renewal.core);
    if Cycles.Busy(m.cycle) {
      ReopenedKeeps(cfg, t);
    } else if !renewal.outcome.Failed? {
      RenewedStartKeeps(cfg, t, e, a, safeRunId);
    }
  }

  /** start also tells the coordinator that the owner is open again. */
  lemma ReopenedKeeps(cfg: MissionConfig, m: Mission)
    requires MissionOk(cfg, m)
    ensures MissionOk(cfg, m.(ownerDisarmed := false))
  {}

  /** On an active run every start is refused, and leaves the invariant standing
      exactly outside the ACT stages. */
  lemma BusyStartKeepsIffOutsideAct(cfg: MissionConfig, m: Mission, e: Env, a: Cycles.StartArgs, safeRunId: bool)
    requires MissionOk(cfg, m) && EnvOk(e) && Cycles.Busy(m.cycle)
    ensures var step := StartMission(cfg, m, e, a, safeRunId);
      && step.raised && step.m.cycle == m.cycle
      && (MissionOk(cfg, step.m) <==> !InActStage(m.cycle))
  {
    if !InActStage(m.cycle) {
      StartMissionKeeps(cfg, m, e, a, safeRunId);
    }
  }

  lemma RenewedStartKeeps(cfg: MissionConfig, t: Mission, e: Env, a: Cycles.StartArgs, safeRunId: bool)
    requires MissionOk(cfg, t) && EnvOk(e) && t.cycle.snapshot.stage.IdleStage? && t.core.sink.synchronized
    ensures var step := Cycles.Start(cfg.plan, t.cycle, a, safeRunId);
      var u := t.(ownerDisarmed := false, cycle := step.cycle);
      Cycles.CycleOk(cfg.plan, u.cycle) &&
      if step.reply.Go? then MissionOk(cfg, Dispatch(cfg, u, e, step.reply.directive).m) else MissionOk(cfg, u)
  {
    var step := Cycles.Start(cfg.plan, t.cycle, a, safeRunId);
    Cycles.StartKeepsOk(cfg.plan, t.cycle, a, safeRunId);
    StartLeads(cfg.plan, t.cycle, a, safeRunId);
    if step.reply.Go? {
      DispatchKeeps(cfg, t.(ownerDisarmed := false, cycle := step.cycle), e, step.reply.directive);
    }
  }

  lemma HeartbeatKeeps(cfg: MissionConfig, m: Mission, e: Env)
    requires MissionOk(cfg, m)
    ensures MissionOk(cfg, Heartbeat(cfg, m, e).m)
  {
    RenewFollows(cfg.core, m.core, cfg.leaseMs, e.now, e.disarmOk);
    FollowingCoreKeeps(cfg, m, RenewLease(m.core, cfg.leaseMs, e.now, e.disarmOk).core);
  }

  lemma CancelledCycleIsOk(cfg: MissionConfig, m: Mission)
    requires Base(cfg, m) && Cycles.Busy(m.cycle) && OwnerClosed(m.core)
    ensures MissionOk(cfg, m.(cycle := Cycles.Cancel(m.cycle, "CANCELLED")))
  {}

  lemma CancelMissionKeeps(cfg: MissionConfig, m: Mission, e: Env)
    requires MissionOk(cfg, m)
    ensures MissionOk(cfg, CancelMission(m, e).m)
  {
    var n := m.(pending := None);
    var step := CoordinatorDisarm(n, e);
    CoordinatorDisarmKeeps(cfg, n, e);
    if !step.raised && Cycles.Busy(step.m.cycle) {
      CancelledCycleIsOk(cfg, step.m);
    }
  }

  // ---------- runs ----------

  /** The calls of one process: the mission's own methods, the executor's events,
      and everything else that reaches the owner.  In this process only the
      mission claims ACT: the manual control server, the one other caller of
      activate_act, is not created when a plan is loaded. */
  datatype MissionCall =
    | CallStart(env: Env, args: Cycles.StartArgs, safeRunId: bool)
    | CallTick(env: Env)
    | CallHeartbeat(env: Env)
    | CallCancel(env: Env)
    | CallResult(env: Env, outcome: Cycles.ChildOutcome, reason: string, quiescent: bool)
    | CallRefused(env: Env, reason: string)
    | CallOwner(call: CoreCall, ok: bool)

  function PerformMission(cfg: MissionConfig, m: Mission, call: MissionCall): (step: MissionStep)
    requires Cycles.CycleOk(cfg.plan, m.cycle)
    ensures Cycles.CycleOk(cfg.plan, step.m.cycle)
  {
    match call
    case CallStart(e, a, safe) => StartMission(cfg, m, e, a, safe)
    case CallTick(e) => TickMission(cfg, m, e)
    case CallHeartbeat(e) => Heartbeat(cfg, m, e)
    case CallCancel(e) => CancelMission(m, e)
    case CallResult(e, outcome, reason, quiescent) => BehaviorResult(cfg, m, e, outcome, reason, quiescent)
    case CallRefused(e, reason) => BehaviorRefused(cfg, m, e, reason)
    case CallOwner(call, ok) => MissionStep(m.(core := PerformCore(cfg.core, m.core, call, ok).core), false)
  }

  predicate Honest(call: MissionCall) {
    match call
    case CallResult(e, _, reason, _) => EnvOk(e) && !Reserved(reason)
    case CallRefused(e, reason) => EnvOk(e) && !Reserved(reason)
    case CallOwner(call, _) => !call.CoreCallActivateAct?
    case _ => EnvOk(call.env)
  }

  /** The call is not a start while an ACT stage runs: a caller sees the stage in
      the snapshot. */
  predicate NotAStartInAct(m: Mission, call: MissionCall) {
    call.CallStart? ==> !InActStage(m.cycle)
  }

  lemma PerformMissionKeeps(cfg: MissionConfig, m: Mission, call: MissionCall)
    requires MissionOk(cfg, m) && Honest(call) && NotAStartInAct(m, call)
    ensures MissionOk(cfg, PerformMission(cfg, m, call).m)
  {
    match call
    case CallStart(e, a, safe) => StartMissionKeeps(cfg, m, e, a, safe);
    case CallTick(e) => TickMissionKeeps(cfg, m, e);
    case CallHeartbeat(e) => HeartbeatKeeps(cfg, m, e);
    case CallCancel(e) => CancelMissionKeeps(cfg, m, e);
    case CallResult(e, outcome, reason, quiescent) =>
      if !m.cycle.snapshot.terminal {
        RecordChildKeeps(cfg, m, e, Cycles.ChildResult(ChildOf(m), outcome, reason, quiescent, None));
      }
    case CallRefused(e, reason) => BehaviorRefusedKeeps(cfg, m, e, reason);
    case CallOwner(call, ok) =>
      OwnerCallFollows(cfg.core, m.core, call, ok);
      FollowingCoreKeeps(cfg, m, PerformCore(cfg.core, m.core, call, ok).core);
  }

  ghost function RunMission(cfg: MissionConfig, calls: seq<MissionCall>): Mission
    requires PlanOk(cfg.plan)
    ensures Cycles.CycleOk(cfg.plan, RunMission(cfg, calls).cycle)
  {
    if calls == [] then InitialMission(cfg.plan)
    else PerformMission(cfg, RunMission(cfg, calls[..|calls| - 1]), calls[|calls| - 1]).m
  }

  /** Every call is honest and no start comes in an ACT stage. */
  ghost predicate Proper(cfg: MissionConfig, calls: seq<MissionCall>)
    requires PlanOk(cfg.plan)
  {
    calls == [] ||
    (var before, last := calls[..|calls| - 1], calls[|calls| - 1];
     Proper(cfg, before) && Honest(last) && NotAStartInAct(RunMission(cfg, before), last))
  }

  lemma {:induction false} EveryMissionRunKeepsInvariant(cfg: MissionConfig, calls: seq<MissionCall>)
    requires PlanOk(cfg.plan) && Proper(cfg, calls)
    ensures MissionOk(cfg, RunMission(cfg, calls))
  {
    if calls == [] {
      InitialMissionOk(cfg);
    } else {
      var before, last := calls[..|calls| - 1], calls[|calls| - 1];
      EveryMissionRunKeepsInvariant(cfg, before);
      PerformMissionKeeps(cfg, RunMission(cfg, before), last);
    }
  }

  lemma InitialMissionOk(cfg: MissionConfig)
    requires PlanOk(cfg.plan)
    ensures MissionOk(cfg, InitialMission(cfg.plan))
  {}

  /** Without a start in an ACT stage, no run ever fails because the owner and the cycle
      disagree about ACT; and whenever the owner has completed the segment of an
      ACT stage, its result is one the plan accepts. */
  lemma ActContractHolds(cfg: MissionConfig, calls: seq<MissionCall>)
    requires PlanOk(cfg.plan) && Proper(cfg, calls)
    ensures var m := RunMission(cfg, calls);
      && !Reserved(m.cycle.snapshot.reason)
      && (InActStage(m.cycle) ==>
            && m.actGeneration.Some? && m.core.segment.generation == m.actGeneration
            && AcceptedAt(m.core.sink.log, m.actGeneration.value) <= cfg.plan.actMaxSteps
            && (m.core.segment.complete ==>
                  m.core.segment.reason.Some? &&
                  Cycles.Accepts(cfg.plan, m.cycle.snapshot.stage, ActResult(m.core.segment))))
  {
    EveryMissionRunKeepsInvariant(cfg, calls);
    var m := RunMission(cfg, calls);
    if InActStage(m.cycle) && m.core.segment.complete {
      CompletedSegmentFits(cfg, m);
    }
  }

  /** With a ready worker and an idle executor, a finished follow that leaves
      cycles to do claims the machine for ACT with the plan's budget. */
  lemma FollowSuccessClaimsAct(cfg: MissionConfig, m: Mission, e: Env)
    requires MissionOk(cfg, m) && m.cycle.snapshot.stage.FollowDig? && m.cycle.snapshot.completed < m.cycle.snapshot.requested
    requires Operational(m.core.sink) && e.workerReady && e.idle && e.ok
    requires !Holds(m.core.sink, m.core.act, ACT_BINDING)
    ensures var step := BehaviorResult(cfg, m, e, Cycles.ChildSucceeded, "SUCCEEDED", true);
      && !step.raised && InActStage(step.m.cycle)
      && step.m.core.sink.authority.generation == m.core.sink.authority.generation + 1
      && Owner(step.m.core.sink.authority) == Some(ACT_BINDING)
      && step.m.actGeneration == Some(step.m.core.sink.authority.generation) == step.m.core.segment.generation
      && step.m.core.segment.maxSteps == Some(cfg.plan.actMaxSteps) && step.m.core.segment.completedSteps == 0
  {
    ClaimSucceeds(m.core.sink, ACT_BINDING, e.now);
    var r := Cycles.ChildResult(Cycles.FollowChild, Cycles.ChildSucceeded, "SUCCEEDED", true, None);
    var cycle := Cycles.Record(cfg.plan, m.cycle, r).cycle;
    var claimed := StartAct(m.(cycle := cycle), e, cfg.plan.actMaxSteps);
    assert !claimed.raised;
    assert RecordChild(cfg, m, e, r) == claimed;
  }

  /** A run that has ended has closed the motion owner, so no later start is
      ever taken by the same process. */
  lemma OneRunPerOwner(cfg: MissionConfig, calls: seq<MissionCall>, e: Env, a: Cycles.StartArgs, safeRunId: bool)
    requires PlanOk(cfg.plan) && Proper(cfg, calls)
    requires RunMission(cfg, calls).cycle.snapshot.terminal
    ensures var m := RunMission(cfg, calls);
      && !Operational(m.core.sink)
      && StartMission(cfg, m, e, a, safeRunId).raised
      && StartMission(cfg, m, e, a, safeRunId).m.cycle == m.cycle
  {
    EveryMissionRunKeepsInvariant(cfg, calls);
  }

  // ---------- a start on an active run ----------

  /** The excluded case: a start in an ACT stage is refused, but not before it has
      forgotten the ACT generation, so the next tick ends the run. */
  lemma SecondStartBreaksAct(cfg: MissionConfig, m: Mission, e: Env, a: Cycles.StartArgs, safeRunId: bool, later: Env)
    requires MissionOk(cfg, m) && Cycles.Busy(m.cycle) && InActStage(m.cycle)
    requires Operational(m.core.sink) && (m.core.deadlineNs.Some? ==> e.now < m.core.deadlineNs.value)
    requires MIN_MISSION_LEASE_MS <= cfg.leaseMs <= MAX_MISSION_LEASE_MS
    requires later.workerReady && later.disarmOk
    ensures var refused := StartMission(cfg, m, e, a, safeRunId);
      && refused.raised && refused.m.cycle == m.cycle && refused.m.actGeneration.None?
      && TickMission(cfg, refused.m, later).m.cycle.snapshot.reason == "ACT_GENERATION_MISMATCH"
  {
    var refused := StartMission(cfg, m, e, a, safeRunId).m;
    assert refused.cycle == m.cycle && refused.actGeneration.None? && !refused.ownerDisarmed;
    assert refused.core == m.core.(deadlineNs := Some(e.now + cfg.leaseMs * 1_000_000));
    MismatchFails(cfg, refused, later);
  }

  lemma MismatchFails(cfg: MissionConfig, m: Mission, e: Env)
    requires Cycles.CycleOk(cfg.plan, m.cycle) && Cycles.Busy(m.cycle) && InActStage(m.cycle)
    requires Operational(m.core.sink) && Inv(m.core.sink) && m.core.disarmResult.None? && !m.ownerDisarmed
    requires e.workerReady && e.disarmOk && m.core.segment.generation != m.actGeneration
    ensures TickMission(cfg, m, e).m.cycle.snapshot.reason == "ACT_GENERATION_MISMATCH"
  {
    DisarmSucceeds(m.core, e.now);
    assert !CoordinatorDisarm(m.(pending := None), e).raised;
  }

  lemma DisarmSucceeds(c: Core, now: nat)
    requires Operational(c.sink) && Inv(c.sink) && c.disarmResult.None?
    ensures !CoreDisarm(c, now, true).outcome.Failed?
  {}

  /** In any other stage the refused start forgets the behavior that waits for RL,
      and no tick does anything about it. */
  lemma SecondStartDropsPending(cfg: MissionConfig, m: Mission, e: Env, a: Cycles.StartArgs, safeRunId: bool, later: Env)
    requires MissionOk(cfg, m) && Cycles.Busy(m.cycle) && !InActStage(m.cycle)
    requires Operational(m.core.sink) && (m.core.deadlineNs.Some? ==> e.now < m.core.deadlineNs.value)
    requires MIN_MISSION_LEASE_MS <= cfg.leaseMs <= MAX_MISSION_LEASE_MS
    ensures var refused := StartMission(cfg, m, e, a, safeRunId);
      && refused.raised && refused.m.cycle == m.cycle && refused.m.pending.None? && refused.m.requests == 0
      && TickMission(cfg, refused.m, later) == MissionStep(refused.m, false)
  {
    var refused := StartMission(cfg, m, e, a, safeRunId).m;
    assert refused.core == m.core.(deadlineNs := Some(e.now + cfg.leaseMs * 1_000_000));
  }

  function RunMissionFrom(cfg: MissionConfig, m: Mission, calls: seq<MissionCall>): Mission
    requires Cycles.CycleOk(cfg.plan, m.cycle)
    decreases |calls|
  {
    if calls == [] then m else RunMissionFrom(cfg, PerformMission(cfg, m, calls[0]).m, calls[1..])
  }

  /** The executor has not been asked, so it has nothing to answer. */
  predicate Unanswered(call: MissionCall) { !call.CallStart? && !call.CallResult? && !call.CallRefused? }

  /** The behavior waiting to be sent is gone, and nothing else takes its place. */
  predicate NothingSent(m: Mission, t: Mission) {
    t.pending.None? && t.requests == m.requests && (t.cycle == m.cycle || t.cycle.snapshot.terminal)
  }

  lemma TickSendsNothing(cfg: MissionConfig, m: Mission, e: Env)
    requires Cycles.CycleOk(cfg.plan, m.cycle) && m.pending.None?
    requires m.cycle.snapshot.terminal || (Cycles.Busy(m.cycle) && !InActStage(m.cycle))
    ensures NothingSent(m, TickMission(cfg, m, e).m)
  {}

  lemma CancelSendsNothing(m: Mission, e: Env)
    requires m.pending.None?
    ensures NothingSent(m, CancelMission(m, e).m)
  {}

  lemma UnansweredSendsNothing(cfg: MissionConfig, m: Mission, call: MissionCall)
    requires Cycles.CycleOk(cfg.plan, m.cycle) && m.pending.None? && Unanswered(call)
    requires m.cycle.snapshot.terminal || (Cycles.Busy(m.cycle) && !InActStage(m.cycle))
    ensures NothingSent(m, PerformMission(cfg, m, call).m)
  {
    match call
    case CallTick(e) => TickSendsNothing(cfg, m, e);
    case CallCancel(e) => CancelSendsNothing(m, e);
    case CallHeartbeat(e) =>
    case CallOwner(_, _) =>
  }

  /** Without an answer the executor was never asked for, nothing that happens
      later sends the forgotten behavior: the run stays where it is or ends. */
  lemma {:induction false} DroppedBehaviorIsNeverSent(cfg: MissionConfig, m: Mission, calls: seq<MissionCall>)
    requires Cycles.CycleOk(cfg.plan, m.cycle) && m.pending.None? && forall i | 0 <= i < |calls| :: Unanswered(calls[i])
    requires m.cycle.snapshot.terminal || (Cycles.Busy(m.cycle) && !InActStage(m.cycle))
    ensures NothingSent(m, RunMissionFrom(cfg, m, calls))
    decreases |calls|
  {
    if calls != [] {
      UnansweredSendsNothing(cfg, m, calls[0]);
      DroppedBehaviorIsNeverSent(cfg, PerformMission(cfg, m, calls[0]).m, calls[1..]);
    }
  }
}
