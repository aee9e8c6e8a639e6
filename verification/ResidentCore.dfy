/** The one motion owner shared by the RL and ACT workers
    (edge_runtime/resident_core.py), as the state every method sees under
    _control_lock and one step function for each method. */
module ResidentCore {
  import opened Wrappers
  import opened ResidentMotion
  import opened ResidentCommands
  import opened ResidentSink
  import opened ResidentIngress

  const RL_BINDING := PolicyBinding("rl_follow", VelocityReference)
  const ACT_BINDING := PolicyBinding("act_dig", ManualAction)
  const MAX_ACT_SEGMENT_STEPS := 2000
  const MIN_MISSION_LEASE_MS := 500
  const MAX_MISSION_LEASE_MS := 5000

  datatype AxisDeadzone = AxisDeadzone(positiveAbs: real, negativeAbs: real)

  datatype DeadzoneContract = DeadzoneContract(
    boom: AxisDeadzone, stick: AxisDeadzone, bucket: AxisDeadzone, swing: AxisDeadzone)

  datatype CoreConfig = CoreConfig(
    sink: Config, deadzone: Option<DeadzoneContract>, chunkSteps: nat, earlyMinSteps: nat)

  predicate AxisContained(d: AxisDeadzone, x: Axis) {
    x.Finite? && if x.value >= 0.0 then x.value <= d.positiveAbs else -x.value <= d.negativeAbs
  }

  predicate InDeadzone(contract: Option<DeadzoneContract>, a: Action) {
    && contract.Some?
    && AxisContained(contract.value.boom, a.boom) && AxisContained(contract.value.stick, a.stick)
    && AxisContained(contract.value.bucket, a.bucket) && AxisContained(contract.value.swing, a.swing)
  }

  datatype CompletionReason = StepBudget | DeadzoneChunk

  datatype Segment = Segment(
    generation: Option<nat>,
    maxSteps: Option<nat>,
    completedSteps: nat,
    complete: bool,
    finalSeq: Option<Sequence>,
    handoffDue: bool,
    lastEffectiveStep: Option<nat>,
    trailingDeadzoneSteps: nat,
    reason: Option<CompletionReason>)

  const NO_SEGMENT := Segment(None, None, 0, false, None, false, None, 0, None)

  /** The early-completion test of _advance_act_segment. */
  predicate DeadzoneChunkDue(cfg: CoreConfig, g: Segment, chunk: Option<seq<Action>>) {
    && cfg.deadzone.Some? && g.maxSteps.Some? && g.completedSteps + 1 < g.maxSteps.value
    && g.completedSteps >= cfg.earlyMinSteps
    && chunk.Some? && |chunk.value| == cfg.chunkSteps
    && forall a | a in chunk.value :: InDeadzone(cfg.deadzone, a)
  }

  /** _advance_act_segment: one accepted ACT command. */
  function Advance(cfg: CoreConfig, g: Segment, seqWritten: Sequence, action: Action, chunk: Option<seq<Action>>): Segment {
    var completed := g.completedSteps + 1;
    var quiet := InDeadzone(cfg.deadzone, action);
    var budgetDue := g.maxSteps.Some? && completed >= g.maxSteps.value;
    var due := budgetDue || DeadzoneChunkDue(cfg, g, chunk);
    g.(completedSteps := completed,
       finalSeq := if due then Some(seqWritten) else None,
       handoffDue := due,
       lastEffectiveStep := if quiet then g.lastEffectiveStep else Some(completed),
       trailingDeadzoneSteps := if quiet then g.trailingDeadzoneSteps + 1 else 0,
       reason := if budgetDue then Some(StepBudget) else if due then Some(DeadzoneChunk) else None)
  }

  datatype Core = Core(
    sink: Sink,
    rl: AdapterState,
    act: AdapterState,
    segment: Segment,
    deadlineNs: Option<nat>,
    disarmResult: Option<WriteResult>,
    zeroAcknowledged: bool)

  const INITIAL_CORE := Core(INITIAL_SINK, INACTIVE_ADAPTER, INACTIVE_ADAPTER, NO_SEGMENT, None, None, false)

  datatype CoreStep = CoreStep(core: Core, outcome: Outcome)

  /** _terminal_zero_ack_matches */
  predicate TerminalZeroEchoed(r: WriteResult, f: Telemetry) {
    && r.writePerformed && r.commandSeq.Some? && r.mode.Some? && r.effectiveAction == ZERO_ACTION
    && f.rxSeq == r.commandSeq.value && CommandLive(f) && f.mode == r.mode && f.action == ZERO_ACTION
  }

  /** _act_segment_acknowledged */
  predicate SegmentEchoed(g: Segment, f: Telemetry) {
    && g.handoffDue && !g.complete && g.finalSeq.Some?
    && f.rxSeq == g.finalSeq.value && CommandLive(f) && f.mode == Some(ManualAction)
  }

  predicate ActIsActive(s: Sink) { s.authority.phase.Active? && s.authority.active == Some(ACT_BINDING) }

  predicate RlIsActive(s: Sink) { s.authority.phase.Active? && s.authority.active == Some(RL_BINDING) }

  function CoreInitialize(c: Core, f: Telemetry): CoreStep {
    var step := Initialize(c.sink, f);
    CoreStep(c.(sink := step.sink), step.outcome)
  }

  /** resident_core.py:230-251, after the sink took the row. */
  function AfterObserve(c: Core, f: Telemetry, ok: bool): CoreStep {
    var noted := c.(zeroAcknowledged :=
      c.zeroAcknowledged || (c.disarmResult.Some? && TerminalZeroEchoed(c.disarmResult.value, f)));
    if !SegmentEchoed(c.segment, f) || !ActIsActive(c.sink) || c.segment.generation != Some(c.sink.authority.generation) then
      CoreStep(noted, Done)
    else
      var claim := BeginActivation(c.sink, c.rl, RL_BINDING, f.receivedNs, ok);
      if claim.outcome.Failed? then CoreStep(noted.(sink := claim.sink, rl := claim.adapter), claim.outcome)
      else CoreStep(noted.(sink := claim.sink, rl := claim.adapter,
                           segment := c.segment.(complete := true, handoffDue := false)), Done)
  }

  function CoreObserve(cfg: CoreConfig, c: Core, f: Telemetry, ok: bool): CoreStep {
    var step := ObserveTelemetry(cfg.sink, c.sink, f, ok);
    if step.outcome.Failed? then CoreStep(c.(sink := step.sink), step.outcome)
    else AfterObserve(c.(sink := step.sink), f, ok)
  }

  function CoreInvalidate(cfg: CoreConfig, c: Core, now: nat, alive: bool, ok: bool): CoreStep {
    var step := InvalidateTelemetry(cfg.sink, c.sink, now, alive, ok);
    CoreStep(c.(sink := step.sink), step.outcome)
  }

  function ActivateRl(c: Core, now: nat, ok: bool): CoreStep {
    var claim := BeginActivation(c.sink, c.rl, RL_BINDING, now, ok);
    var d := c.(sink := claim.sink, rl := claim.adapter);
    if claim.outcome.Failed? then CoreStep(d, claim.outcome)
    else CoreStep(d.(segment := c.segment.(handoffDue := false)), claim.outcome)
  }

  predicate BudgetAllowed(maxSteps: Option<int>) {
    maxSteps.None? || 1 <= maxSteps.value <= MAX_ACT_SEGMENT_STEPS
  }

  function ActivateAct(c: Core, maxSteps: Option<int>, now: nat, ok: bool): CoreStep {
    if !BudgetAllowed(maxSteps) then CoreStep(c, Failed(InvalidBudget))
    else
      var budget: Option<nat> := if maxSteps.None? then None else Some(maxSteps.value);
      var claim := BeginActivation(c.sink, c.act, ACT_BINDING, now, ok);
      var d := c.(sink := claim.sink, act := claim.adapter);
      if !claim.outcome.Generation? then CoreStep(d, claim.outcome)
      else if c.segment.generation == Some(claim.outcome.generation) then
        CoreStep(d, if c.segment.maxSteps != budget then Failed(BudgetChanged) else claim.outcome)
      else
        CoreStep(d.(segment := NO_SEGMENT.(generation := Some(claim.outcome.generation), maxSteps := budget)),
                 claim.outcome)
  }

  function SubmitAct(cfg: CoreConfig, c: Core, p: CandidatePacket, now: nat, ok: bool): CoreStep {
    if c.segment.handoffDue then
      CoreStep(c, Rejection(if c.segment.reason == Some(DeadzoneChunk) then ActEarlyComplete else ActBudgetReached,
                            Some(ManualAction)))
    else AfterSend(cfg, c, p, SendCandidate(cfg.sink, c.sink, c.act, ACT_BINDING, p, now, ok))
  }

  /** An accepted command advances the segment. */
  function AfterSend(cfg: CoreConfig, c: Core, p: CandidatePacket, sent: Ingress): CoreStep {
    var d := c.(sink := sent.sink, act := sent.adapter);
    if !sent.outcome.Result? || !sent.outcome.result.accepted || c.segment.generation.None? ||
       sent.outcome.result.commandSeq.None? || p.BadCandidatePacket?
    then CoreStep(d, sent.outcome)
    else
      CoreStep(d.(segment := Advance(cfg, c.segment, sent.outcome.result.commandSeq.value,
                                     sent.outcome.result.effectiveAction, p.candidate.actionChunk)),
               sent.outcome)
  }

  function SendRl(cfg: CoreConfig, c: Core, p: VelocityPacket, now: nat, wallMs: nat, ok: bool): CoreStep {
    var sent := SendVelocity(cfg.sink, c.sink, c.rl, RL_BINDING, p, now, wallMs, ok);
    CoreStep(c.(sink := sent.sink, rl := sent.adapter), sent.outcome)
  }

  function StopRl(c: Core, now: nat, ok: bool): CoreStep {
    var stop := RequestAdapterStop(c.sink, c.rl, RL_BINDING, now, ok);
    CoreStep(c.(sink := stop.sink, rl := stop.adapter), stop.outcome)
  }

  /** notify_act_worker_disconnected */
  function Disconnect(c: Core, now: nat, ok: bool): CoreStep {
    if !Operational(c.sink) || c.segment.generation.None? then CoreStep(c, Stopped(false))
    else
      var stop := RequestSourceStop(c.sink, ACT_BINDING, c.segment.generation.value, now, ok);
      var d := c.(sink := stop.sink);
      if stop.outcome == Stopped(true) then CoreStep(d.(segment := c.segment.(handoffDue := false)), stop.outcome)
      else CoreStep(d, stop.outcome)
  }

  function CoreDisarm(c: Core, now: nat, ok: bool): CoreStep {
    if c.disarmResult.Some? then CoreStep(c, Result(c.disarmResult.value))
    else
      var step := TerminallyDisarm(c.sink, now, ok);
      var d := c.(sink := step.sink, deadlineNs := None, segment := c.segment.(handoffDue := false));
      if !step.outcome.Result? then CoreStep(d, step.outcome)
      else
        var r := step.outcome.result;
        CoreStep(d.(disarmResult := Some(r),
                    zeroAcknowledged := !r.writePerformed && r.reason.TerminalDisarm? && r.commandSeq.None? &&
                                        r.mode.None? && r.effectiveAction == ZERO_ACTION),
                 step.outcome)
  }

  function RenewLease(c: Core, leaseMs: int, now: nat, ok: bool): CoreStep {
    if !(MIN_MISSION_LEASE_MS <= leaseMs <= MAX_MISSION_LEASE_MS) then CoreStep(c, Failed(InvalidLease))
    else if !Operational(c.sink) then CoreStep(c, Failed(OwnerDisarmed))
    else if c.deadlineNs.Some? && now >= c.deadlineNs.value then
      var step := CoreDisarm(c, now, ok);
      CoreStep(step.core, if step.outcome.Failed? then step.outcome else Failed(MissionLeaseExpired))
    else CoreStep(c.(deadlineNs := Some(now + leaseMs * 1_000_000)), Done)
  }

  function CoreTick(cfg: CoreConfig, c: Core, now: nat, ok: bool): CoreStep {
    if c.deadlineNs.Some? && now >= c.deadlineNs.value then CoreDisarm(c.(deadlineNs := None), now, ok)
    else
      var step := Tick(cfg.sink, c.sink, now, ok);
      CoreStep(c.(sink := step.sink), step.outcome)
  }

  /** control_status_snapshot */
  datatype ControlSnapshot = ControlSnapshot(
    motion: AuthorityState,
    segmentGeneration: Option<nat>,
    maxSteps: Option<nat>,
    completedSteps: nat,
    complete: bool,
    reason: Option<CompletionReason>,
    rlIsActive: bool,
    actIsActive: bool,
    missionLeaseActive: bool,
    isOperational: bool)

  function ControlStatus(c: Core, now: nat): ControlSnapshot {
    ControlSnapshot(
      c.sink.authority, c.segment.generation, c.segment.maxSteps, c.segment.completedSteps, c.segment.complete,
      c.segment.reason, RlIsActive(c.sink), ActIsActive(c.sink),
      c.deadlineNs.Some? && Operational(c.sink) && now < c.deadlineNs.value, Operational(c.sink))
  }

  datatype CoreCall =
    | CoreCallInitialize(frame: Telemetry)
    | CoreCallObserve(frame: Telemetry)
    | CoreCallInvalidate(now: nat, alive: bool)
    | CoreCallActivateRl(now: nat)
    | CoreCallActivateAct(maxSteps: Option<int>, now: nat)
    | CoreCallSubmitAct(packet: CandidatePacket, now: nat)
    | CoreCallSendRl(velocity: VelocityPacket, now: nat, wallMs: nat)
    | CoreCallStopRl(now: nat)
    | CoreCallDisconnect(now: nat)
    | CoreCallRenew(leaseMs: int, now: nat)
    | CoreCallTick(now: nat)
    | CoreCallDisarm(now: nat)

  function PerformCore(cfg: CoreConfig, c: Core, call: CoreCall, ok: bool): CoreStep {
    match call
    case CoreCallInitialize(f) => CoreInitialize(c, f)
    case CoreCallObserve(f) => CoreObserve(cfg, c, f, ok)
    case CoreCallInvalidate(now, alive) => CoreInvalidate(cfg, c, now, alive, ok)
    case CoreCallActivateRl(now) => ActivateRl(c, now, ok)
    case CoreCallActivateAct(maxSteps, now) => ActivateAct(c, maxSteps, now, ok)
    case CoreCallSubmitAct(p, now) => SubmitAct(cfg, c, p, now, ok)
    case CoreCallSendRl(p, now, wallMs) => SendRl(cfg, c, p, now, wallMs, ok)
    case CoreCallStopRl(now) => StopRl(c, now, ok)
    case CoreCallDisconnect(now) => Disconnect(c, now, ok)
    case CoreCallRenew(leaseMs, now) => RenewLease(c, leaseMs, now, ok)
    case CoreCallTick(now) => CoreTick(cfg, c, now, ok)
    case CoreCallDisarm(now) => CoreDisarm(c, now, ok)
  }

  datatype TimedCoreCall = TimedCoreCall(call: CoreCall, ok: bool)

  function RunCore(cfg: CoreConfig, calls: seq<TimedCoreCall>): Core {
    if calls == [] then INITIAL_CORE
    else
      var last := calls[|calls| - 1];
      PerformCore(cfg, RunCore(cfg, calls[..|calls| - 1]), last.call, last.ok).core
  }
}
