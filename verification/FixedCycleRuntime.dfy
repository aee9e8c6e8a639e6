/** The fixed-cycle mission on the Orin (edge_runtime/resident_fixed_cycle_runtime.py
    with the coordinator of resident_fixed_cycle.py), composed with the motion
    owner it drives: the state its lock protects and one step function for each
    method.  The read-only visualization is left out. */
module FixedCycleRuntime {
  import opened Wrappers
  import opened ResidentSink
  import opened ResidentCore
  import opened FixedCyclePlans
  import Cycles = FixedCycle

  datatype MissionConfig = MissionConfig(plan: Plan, core: CoreConfig, activationTimeoutNs: nat, leaseMs: int)

  datatype Kind = FollowBehavior | FixedBehavior

  datatype Pending = Pending(kind: Kind, target: string, createdNs: nat)

  datatype Mission = Mission(
    cycle: Cycles.Cycle,
    ownerDisarmed: bool,
    pending: Option<Pending>,
    session: string,
    requests: nat,
    actGeneration: Option<nat>,
    actStartedNs: Option<nat>,
    actWasActive: bool,
    disarmedNs: Option<nat>,
    core: Core)

  function InitialMission(p: Plan): Mission {
    Mission(Cycles.InitialCycle(p), false, None, "", 0, None, None, false, None, INITIAL_CORE)
  }

  /** What one call finds around it: the clock, the fate of a claim's and of a
      disarm's serial write, the ACT worker, the behavior executor, and the
      executor's immediate answer to a request if it refuses it. */
  datatype Env = Env(now: nat, ok: bool, disarmOk: bool, workerReady: bool, idle: bool, refusal: Option<string>)

  /** raised: the call ended in an exception. */
  datatype MissionStep = MissionStep(m: Mission, raised: bool)

  function DriverDisarm(m: Mission, e: Env): (step: MissionStep)
    ensures step.m.cycle == m.cycle
  {
    var step := CoreDisarm(m.core, e.now, e.disarmOk);
    var t := m.(pending := None, core := step.core);
    if step.outcome.Failed? then MissionStep(t, true) else MissionStep(t.(disarmedNs := Some(e.now)), false)
  }

  /** ResidentFixedCycleCoordinator._terminal_disarm */
  function CoordinatorDisarm(m: Mission, e: Env): (step: MissionStep)
    ensures step.m.cycle == m.cycle
  {
    if m.ownerDisarmed then MissionStep(m, false)
    else
      var step := DriverDisarm(m, e);
      if step.raised then step else MissionStep(step.m.(ownerDisarmed := true), false)
  }

  /** ResidentFixedCycleCoordinator.fail: the owner is closed before the cycle. */
  function CoordinatorFail(m: Mission, e: Env, reason: string): (step: MissionStep)
    ensures step.m.cycle == m.cycle || step.m.cycle == Cycles.Fail(m.cycle, reason)
  {
    var step := CoordinatorDisarm(m, e);
    if step.raised then step
    else if !Cycles.Busy(step.m.cycle) then MissionStep(step.m, true)
    else MissionStep(step.m.(cycle := Cycles.Fail(step.m.cycle, reason)), false)
  }

  function MissionFail(m: Mission, e: Env, reason: string): (step: MissionStep)
    ensures step.m.cycle == m.cycle || step.m.cycle == Cycles.Fail(m.cycle, reason)
  {
    if m.cycle.snapshot.terminal then MissionStep(m, false) else CoordinatorFail(m.(pending := None), e, reason)
  }

  function ChildOf(m: Mission): Cycles.Child {
    if m.cycle.snapshot.stage.ExecuteDump? then Cycles.FixedActionChild else Cycles.FollowChild
  }

  function RefusalResult(m: Mission, reason: string): Cycles.ChildResult {
    Cycles.ChildResult(ChildOf(m), Cycles.ChildOther, reason, true, None)
  }

  /** A request turned away by the executor ends the run. */
  function BehaviorRefused(cfg: MissionConfig, m: Mission, e: Env, reason: string): (step: MissionStep)
    requires Cycles.CycleOk(cfg.plan, m.cycle)
    ensures Cycles.CycleOk(cfg.plan, step.m.cycle)
  {
    if m.cycle.snapshot.terminal then MissionStep(m, false)
    else
      var step := Cycles.Record(cfg.plan, m.cycle, RefusalResult(m, reason));
      if step.reply.Refused? then MissionStep(m, true)
      else CoordinatorDisarm(m.(cycle := step.cycle), e)
  }

  function Requested(m: Mission): Mission {
    m.(pending := None, requests := m.requests + 1)
  }

  /** The executor is asked to start the pending behavior. */
  function SubmitPending(cfg: MissionConfig, m: Mission, e: Env): (step: MissionStep)
    requires Cycles.CycleOk(cfg.plan, m.cycle)
    ensures Cycles.CycleOk(cfg.plan, step.m.cycle)
  {
    if e.refusal.None? then MissionStep(Requested(m), false)
    else BehaviorRefused(cfg, Requested(m), e, e.refusal.value)
  }

  /** _dispatch_pending_if_ready */
  function DispatchPending(cfg: MissionConfig, m: Mission, e: Env): (step: MissionStep)
    requires Cycles.CycleOk(cfg.plan, m.cycle)
    ensures Cycles.CycleOk(cfg.plan, step.m.cycle)
  {
    if m.pending.None? || m.cycle.snapshot.terminal then MissionStep(m, false)
    else if e.now - m.pending.value.createdNs > cfg.activationTimeoutNs then MissionFail(m, e, "RL_ACTIVATION_TIMEOUT")
    else if !RlIsActive(m.core.sink) || !e.idle then MissionStep(m, false)
    else SubmitPending(cfg, m, e)
  }

  /** start_follow and start_fixed_action */
  function StartBehavior(cfg: MissionConfig, m: Mission, e: Env, kind: Kind, target: string): (step: MissionStep)
    requires Cycles.CycleOk(cfg.plan, m.cycle)
    ensures Cycles.CycleOk(cfg.plan, step.m.cycle)
  {
    if m.pending.Some? then MissionStep(m, true)
    else
      var t := m.(pending := Some(Pending(kind, target, e.now)));
      if RlIsActive(m.core.sink) then DispatchPending(cfg, t, e)
      else
        var claim := ActivateRl(m.core, e.now, e.ok);
        var u := t.(core := claim.core);
        if claim.outcome.Failed? then MissionStep(u, true) else DispatchPending(cfg, u, e)
  }

  /** activate_act: claimed only while the executor is idle. */
  function StartAct(m: Mission, e: Env, maxSteps: nat): (step: MissionStep)
    ensures step.m.cycle == m.cycle
  {
    if !e.workerReady || !e.idle then MissionStep(m, true)
    else
      var claim := ActivateAct(m.core, Some(maxSteps as int), e.now, e.ok);
      var t := m.(core := claim.core);
      if !claim.outcome.Generation? then MissionStep(t, true)
      else MissionStep(t.(actGeneration := Some(claim.outcome.generation), actStartedNs := Some(e.now),
                          actWasActive := ActIsActive(claim.core.sink)), false)
  }

  function DispatchUnchecked(cfg: MissionConfig, m: Mission, e: Env, d: Cycles.Directive): (step: MissionStep)
    requires Cycles.CycleOk(cfg.plan, m.cycle)
    ensures Cycles.CycleOk(cfg.plan, step.m.cycle)
  {
    match d
    case FollowTo(_, artifact) =>
      TargetsHaveArtifacts(cfg.plan);
      var target := FirstTarget(cfg.plan, TargetIds(cfg.plan.profile, cfg.plan.digSequence), artifact);
      if target.None? then MissionStep(m, true) else StartBehavior(cfg, m, e, FollowBehavior, target.value)
    case RunAct(maxSteps) => StartAct(m, e, maxSteps)
    case RunFixed(behavior) => StartBehavior(cfg, m, e, FixedBehavior, behavior)
  }

  /** ResidentFixedCycleCoordinator._dispatch: a dispatch that raises fails the
      cycle and closes the owner before it raises again. */
  function Dispatch(cfg: MissionConfig, m: Mission, e: Env, d: Cycles.Directive): (step: MissionStep)
    requires Cycles.CycleOk(cfg.plan, m.cycle)
    ensures Cycles.CycleOk(cfg.plan, step.m.cycle)
  {
    var step := DispatchUnchecked(cfg, m, e, d);
    if !step.raised then step
    else if !Cycles.Busy(step.m.cycle) then MissionStep(step.m, true)
    else
      MissionStep(CoordinatorDisarm(step.m.(cycle := Cycles.Fail(step.m.cycle, "LOCAL_DISPATCH_FAILED")), e).m, true)
  }

  /** ResidentFixedCycleCoordinator.record_child_result */
  function RecordChild(cfg: MissionConfig, m: Mission, e: Env, r: Cycles.ChildResult): (step: MissionStep)
    requires Cycles.CycleOk(cfg.plan, m.cycle)
    ensures Cycles.CycleOk(cfg.plan, step.m.cycle)
  {
    var step := Cycles.Record(cfg.plan, m.cycle, r);
    match step.reply
    case Refused(_) => MissionStep(m, true)
    case Nothing => CoordinatorDisarm(m.(cycle := step.cycle), e)
    case Go(d) =>
      Cycles.RecordKeepsOk(cfg.plan, m.cycle, r);
      Dispatch(cfg, m.(cycle := step.cycle), e, d)
  }

  function ReasonText(r: CompletionReason): string {
    if r.StepBudget? then "STEP_BUDGET_REACHED" else "DEADZONE_CHUNK_REACHED"
  }

  function ActResult(g: Segment): Cycles.ChildResult
    requires g.reason.Some?
  {
    Cycles.ChildResult(Cycles.ActChild, Cycles.ChildSucceeded, ReasonText(g.reason.value), true,
                       Some(g.completedSteps as int))
  }

  /** _advance_act */
  function AdvanceAct(cfg: MissionConfig, m: Mission, e: Env): (step: MissionStep)
    requires Cycles.CycleOk(cfg.plan, m.cycle)
    ensures Cycles.CycleOk(cfg.plan, step.m.cycle)
  {
    var g := m.core.segment;
    if !e.workerReady then MissionFail(m, e, "ACT_WORKER_UNAVAILABLE")
    else if g.generation != m.actGeneration then MissionFail(m, e, "ACT_GENERATION_MISMATCH")
    else if g.complete then
      var t := m.(actGeneration := None, actStartedNs := None);
      if g.reason.None? then MissionFail(t, e, "ACT_COMPLETION_REASON_INVALID") else RecordChild(cfg, t, e, ActResult(g))
    else if ActIsActive(m.core.sink) then MissionStep(m.(actWasActive := true), false)
    else if m.actWasActive then MissionFail(m, e, "ACT_AUTHORITY_LOST")
    else if m.actStartedNs.Some? && e.now - m.actStartedNs.value > cfg.activationTimeoutNs then
      MissionFail(m, e, "ACT_ACTIVATION_TIMEOUT")
    else MissionStep(m, false)
  }

  predicate InActStage(c: Cycles.Cycle) { c.snapshot.stage.ActDig? || c.snapshot.stage.ActWholeCycle? }

  function TickMission(cfg: MissionConfig, m: Mission, e: Env): (step: MissionStep)
    requires Cycles.CycleOk(cfg.plan, m.cycle)
    ensures Cycles.CycleOk(cfg.plan, step.m.cycle)
  {
    if !Cycles.Busy(m.cycle) then MissionStep(m, false)
    else if !Operational(m.core.sink) then MissionFail(m, e, "RESIDENT_CORE_NOT_OPERATIONAL")
    else
      var step := if InActStage(m.cycle) then AdvanceAct(cfg, m, e) else MissionStep(m, false);
      if step.raised then step else DispatchPending(cfg, step.m, e)
  }

  /** The fields start clears before anything can refuse it. */
  function Cleared(m: Mission, session: string): Mission {
    m.(session := session, requests := 0, pending := None, actGeneration := None, actStartedNs := None,
       actWasActive := false, disarmedNs := None)
  }

  function StartMission(cfg: MissionConfig, m: Mission, e: Env, a: Cycles.StartArgs, safeRunId: bool): (step: MissionStep)
    requires Cycles.CycleOk(cfg.plan, m.cycle)
    ensures Cycles.CycleOk(cfg.plan, step.m.cycle)
  {
    var renewal := RenewLease(m.core, cfg.leaseMs, e.now, e.disarmOk);
    var t := Cleared(m, a.runId).(core := renewal.core);
    if renewal.outcome.Failed? then MissionStep(t, true)
    else
      var step := Cycles.Start(cfg.plan, m.cycle, a, safeRunId);
      var u := t.(ownerDisarmed := false, cycle := step.cycle);
      Cycles.StartKeepsOk(cfg.plan, m.cycle, a, safeRunId);
      if !step.reply.Go? then MissionStep(u, true) else Dispatch(cfg, u, e, step.reply.directive)
  }

  function Heartbeat(cfg: MissionConfig, m: Mission, e: Env): MissionStep {
    if m.cycle.snapshot.stage.IdleStage? then MissionStep(m, true)
    else if m.cycle.snapshot.terminal then MissionStep(m, false)
    else if !Operational(m.core.sink) then MissionStep(m, true)
    else
      var renewal := RenewLease(m.core, cfg.leaseMs, e.now, e.disarmOk);
      MissionStep(m.(core := renewal.core), renewal.outcome.Failed?)
  }

  /** cancel closes the owner first, even when no cycle is active. */
  function CancelMission(m: Mission, e: Env): MissionStep {
    var step := CoordinatorDisarm(m.(pending := None), e);
    if step.raised then step
    else if !Cycles.Busy(step.m.cycle) then MissionStep(step.m, true)
    else MissionStep(step.m.(cycle := Cycles.Cancel(step.m.cycle, "CANCELLED")), false)
  }

  /** _on_behavior_event for a result; feedback, accepted and status change
      nothing that is modelled. */
  function BehaviorResult(cfg: MissionConfig, m: Mission, e: Env, outcome: Cycles.ChildOutcome, reason: string, quiescent: bool)
    : (step: MissionStep)
    requires Cycles.CycleOk(cfg.plan, m.cycle)
    ensures Cycles.CycleOk(cfg.plan, step.m.cycle)
  {
    if m.cycle.snapshot.terminal then MissionStep(m, false)
    else RecordChild(cfg, m, e, Cycles.ChildResult(ChildOf(m), outcome, reason, quiescent, None))
  }
}
