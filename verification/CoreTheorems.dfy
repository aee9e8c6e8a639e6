/** What the motion owner guarantees over every run of calls from its workers,
    its mission and its telemetry. */
module CoreTheorems {
  import opened Wrappers
  import opened ResidentMotion
  import opened ResidentCommands
  import opened ResidentSink
  import opened ResidentIngress
  import opened ResidentCore
  import opened HandoffInvariant
  import opened SinkTheorems
  import opened SinkEffects
  import opened CoreInvariant
  import opened CorePreservation

  lemma {:induction false} EveryCoreRunKeepsInvariant(cfg: CoreConfig, calls: seq<TimedCoreCall>)
    ensures CoreInv(cfg, RunCore(cfg, calls))
  {
    if calls != [] {
      var last := calls[|calls| - 1];
      EveryCoreRunKeepsInvariant(cfg, calls[..|calls| - 1]);
      PerformCoreKeeps(cfg, RunCore(cfg, calls[..|calls| - 1]), last.call, last.ok);
    }
  }

  // ---------- ACT budget ----------

  /** Over every run the step count of a segment is the number of commands the
      serial port accepted at its generation, never exceeds the budget, and
      splits into the last effective step and the quiet ones after it. */
  lemma ActBudgetIsConserved(cfg: CoreConfig, calls: seq<TimedCoreCall>)
    requires RunCore(cfg, calls).segment.generation.Some?
    ensures var c := RunCore(cfg, calls);
      && c.segment.completedSteps == AcceptedAt(c.sink.log, c.segment.generation.value)
      && (c.segment.maxSteps.Some? ==> c.segment.completedSteps <= c.segment.maxSteps.value)
      && c.segment.trailingDeadzoneSteps + LastEffective(c.segment) == c.segment.completedSteps
  {
    EveryCoreRunKeepsInvariant(cfg, calls);
  }

  /** One control snapshot never shows a completed segment with ACT still active
      at its generation, and a completed segment carries a reason its step count
      bears out. */
  lemma CompletionNeverOverlapsAct(cfg: CoreConfig, calls: seq<TimedCoreCall>, now: nat)
    ensures var v := ControlStatus(RunCore(cfg, calls), now);
      v.complete ==>
        && v.segmentGeneration.Some? && v.segmentGeneration.value < v.motion.generation
        && !(v.actIsActive && v.segmentGeneration == Some(v.motion.generation))
        && v.maxSteps.Some? && v.reason.Some?
        && (v.reason == Some(StepBudget) ==> v.completedSteps == v.maxSteps.value)
        && (v.reason == Some(DeadzoneChunk) ==> cfg.earlyMinSteps < v.completedSteps < v.maxSteps.value)
  {
    EveryCoreRunKeepsInvariant(cfg, calls);
  }

  /** The echo of the last ACT step hands the machine to RL by itself: the segment
      is complete and the next generation belongs to RL. */
  lemma LastStepEchoClaimsRl(cfg: CoreConfig, c: Core, f: Telemetry)
    requires CoreInv(cfg, c) && Operational(c.sink)
    requires SegmentEchoed(c.segment, f) && ActIsActive(c.sink) && c.segment.generation == Some(c.sink.authority.generation)
    ensures var t := AfterObserve(c, f, true).core;
      && t.segment.complete && !t.segment.handoffDue && Operational(t.sink)
      && t.sink.authority.generation == c.sink.authority.generation + 1
      && Owner(t.sink.authority) == Some(RL_BINDING) && t.rl.generation == Some(t.sink.authority.generation)
  {
    assert !Holds(c.sink, c.rl, RL_BINDING);
    ClaimSucceeds(c.sink, RL_BINDING, f.receivedNs);
  }

  lemma ClaimSucceeds(s: Sink, binding: PolicyBinding, now: nat)
    requires Inv(s) && Operational(s)
    ensures var step := RequestHandoff(s, binding, now, true);
      && step.outcome == Generation(s.authority.generation + 1) && Operational(step.sink)
      && step.sink.authority == HandoffRequested(s.authority, binding, now)
  {
    assert Encodable(binding.mode, ZERO_ACTION);
    assert s.authority.active.Some? ==> Encodable(s.authority.active.value.mode, ZERO_ACTION);
  }

  // ---------- release ----------

  /** terminal_zero_acknowledged is evidence: the last command the machine took
      was a zero and came back echoed, or nothing was left to stop because
      every motion had already been acknowledged to zero. */
  lemma ReleaseIsOnEvidence(cfg: CoreConfig, calls: seq<TimedCoreCall>)
    ensures var c := RunCore(cfg, calls);
      c.zeroAcknowledged ==>
        && c.disarmResult.Some? && c.sink.disarmed && !c.sink.faulted && !LastIsNonzero(c.sink)
        && if c.disarmResult.value.writePerformed then LastZeroEchoed(c.sink) else AllMotionReleased(c.sink)
  {
    EveryCoreRunKeepsInvariant(cfg, calls);
  }

  // ---------- what moves the machine ----------

  /** No command that moves the machine was added. */
  predicate Still(s: Sink, t: Sink) {
    s.log <= t.log && forall i | |s.log| <= i < |t.log| :: !Nonzero(t.log[i])
  }

  predicate CoreMove(s: Sink, t: Sink) {
    && Still(s, t) && (Operational(t) ==> Operational(s)) && t.synchronized == s.synchronized
    && (s.synchronized && s.disarmed ==> OnlyRowsChange(s, t))
  }

  lemma QuietIsStill(s: Sink, t: Sink)
    requires QuietMove(s, t) && Inv(t)
    ensures CoreMove(s, t)
  {}

  lemma MoveTransitive(s: Sink, m: Sink, t: Sink)
    requires CoreMove(s, m) && CoreMove(m, t)
    ensures CoreMove(s, t)
  {}

  lemma ClaimMove(cfg: CoreConfig, c: Core, a: AdapterState, binding: PolicyBinding, now: nat, ok: bool)
    requires Inv(c.sink) && AdapterOk(c.sink, a, binding)
    ensures CoreMove(c.sink, BeginActivation(c.sink, a, binding, now, ok).sink)
  {
    ActivationKeeps(cfg.sink, c.sink, a, binding, now, ok);
    QuietIsStill(c.sink, BeginActivation(c.sink, a, binding, now, ok).sink);
  }

  lemma ActivateRlMove(cfg: CoreConfig, c: Core, now: nat, ok: bool)
    requires CoreInv(cfg, c)
    ensures CoreMove(c.sink, ActivateRl(c, now, ok).core.sink)
  {
    ClaimMove(cfg, c, c.rl, RL_BINDING, now, ok);
  }

  lemma ActivateActMove(cfg: CoreConfig, c: Core, maxSteps: Option<int>, now: nat, ok: bool)
    requires CoreInv(cfg, c)
    ensures CoreMove(c.sink, ActivateAct(c, maxSteps, now, ok).core.sink)
  {
    ClaimMove(cfg, c, c.act, ACT_BINDING, now, ok);
  }

  lemma ObserveMove(cfg: CoreConfig, c: Core, f: Telemetry, ok: bool)
    requires CoreInv(cfg, c)
    ensures CoreMove(c.sink, CoreObserve(cfg, c, f, ok).core.sink)
  {
    var step := ObserveTelemetry(cfg.sink, c.sink, f, ok);
    ObserveIsQuiet(cfg.sink, c.sink, f, ok);
    QuietIsStill(c.sink, step.sink);
    QuietMoveKeeps(cfg, c, step.sink);
    ClaimMove(cfg, c.(sink := step.sink), c.rl, RL_BINDING, f.receivedNs, ok);
    MoveTransitive(c.sink, step.sink, BeginActivation(step.sink, c.rl, RL_BINDING, f.receivedNs, ok).sink);
  }

  lemma InvalidateMove(cfg: CoreConfig, c: Core, now: nat, alive: bool, ok: bool)
    requires CoreInv(cfg, c)
    ensures CoreMove(c.sink, CoreInvalidate(cfg, c, now, alive, ok).core.sink)
  {
    InvalidateIsQuiet(cfg.sink, c.sink, now, alive, ok);
    QuietIsStill(c.sink, InvalidateTelemetry(cfg.sink, c.sink, now, alive, ok).sink);
  }

  lemma StopMove(cfg: CoreConfig, c: Core, now: nat, ok: bool)
    requires CoreInv(cfg, c)
    ensures CoreMove(c.sink, StopRl(c, now, ok).core.sink)
  {
    if c.rl.generation.Some? {
      SourceStopIsQuiet(cfg.sink, c.sink, RL_BINDING, c.rl.generation.value, now, ok);
      QuietIsStill(c.sink, RequestSourceStop(c.sink, RL_BINDING, c.rl.generation.value, now, ok).sink);
    }
  }

  lemma DisconnectMove(cfg: CoreConfig, c: Core, now: nat, ok: bool)
    requires CoreInv(cfg, c)
    ensures CoreMove(c.sink, Disconnect(c, now, ok).core.sink)
  {
    if c.segment.generation.Some? {
      SourceStopIsQuiet(cfg.sink, c.sink, ACT_BINDING, c.segment.generation.value, now, ok);
      QuietIsStill(c.sink, RequestSourceStop(c.sink, ACT_BINDING, c.segment.generation.value, now, ok).sink);
    }
  }

  lemma DisarmMove(cfg: CoreConfig, c: Core, now: nat, ok: bool)
    requires CoreInv(cfg, c)
    ensures CoreMove(c.sink, CoreDisarm(c, now, ok).core.sink)
  {
    DisarmIsQuiet(cfg.sink, c.sink, now, ok);
    QuietIsStill(c.sink, TerminallyDisarm(c.sink, now, ok).sink);
  }

  lemma TickMove(cfg: CoreConfig, c: Core, now: nat, ok: bool)
    requires CoreInv(cfg, c)
    ensures CoreMove(c.sink, CoreTick(cfg, c, now, ok).core.sink)
  {
    if c.deadlineNs.Some? && now >= c.deadlineNs.value {
      DisarmMove(cfg, c.(deadlineNs := None), now, ok);
    } else {
      TickIsQuiet(cfg.sink, c.sink, now, ok);
      QuietIsStill(c.sink, Tick(cfg.sink, c.sink, now, ok).sink);
    }
  }

  lemma RenewMove(cfg: CoreConfig, c: Core, leaseMs: int, now: nat, ok: bool)
    requires CoreInv(cfg, c)
    ensures CoreMove(c.sink, RenewLease(c, leaseMs, now, ok).core.sink)
  {
    DisarmMove(cfg, c, now, ok);
  }

  /** A submission either moves nothing or appends its one command, stamped
      with its own time, on an operational sink. */
  predicate Moves(s: Sink, t: Sink, now: nat) {
    Operational(s) && |t.log| == |s.log| + 1 && s.log <= t.log && Last(t).at == now
  }

  lemma SubmitStampsItsTime(cfg: Config, s: Sink, c: MotionCandidate, now: nat, ok: bool)
    ensures var step := SubmitCandidate(cfg, s, c, now, ok);
      step.outcome.Result? && step.outcome.result.accepted ==> Moves(s, step.sink, now)
  {
    var d := Routed(cfg, s, c, now);
    StopIsFaithful(s, now, Some(SafetyRejected), ok);
    if Operational(s) && d.mode.Some? {
      WriteCandidateMoves(s, c, d, now, ok);
    }
  }

  lemma SubmitActMove(cfg: CoreConfig, c: Core, p: CandidatePacket, now: nat, ok: bool)
    requires CoreInv(cfg, c)
    ensures var t := SubmitAct(cfg, c, p, now, ok).core.sink; CoreMove(c.sink, t) || Moves(c.sink, t, now)
  {
    if !c.segment.handoffDue {
      var sent := SendCandidate(cfg.sink, c.sink, c.act, ACT_BINDING, p, now, ok);
      SendCandidateKeeps(cfg.sink, c.sink, c.act, ACT_BINDING, p, now, ok);
      if sent.outcome.Result? && sent.outcome.result.accepted {
        SubmitStampsItsTime(cfg.sink, c.sink, p.candidate, now, ok);
      } else {
        QuietIsStill(c.sink, sent.sink);
      }
    }
  }

  lemma SendRlMove(cfg: CoreConfig, c: Core, p: VelocityPacket, now: nat, wallMs: nat, ok: bool)
    requires CoreInv(cfg, c)
    ensures var t := SendRl(cfg, c, p, now, wallMs, ok).core.sink; CoreMove(c.sink, t) || Moves(c.sink, t, now)
  {
    var sent := SendVelocity(cfg.sink, c.sink, c.rl, RL_BINDING, p, now, wallMs, ok);
    SendVelocityKeeps(cfg.sink, c.sink, c.rl, p, now, wallMs, ok);
    if sent.outcome.Result? && sent.outcome.result.accepted {
      var d := DecodeVelocity(p, wallMs, c.rl.lastSequence).value;
      SubmitStampsItsTime(cfg.sink, c.sink, VelocityCandidate(RL_BINDING, c.rl.generation.value, d, now), now, ok);
    } else {
      QuietIsStill(c.sink, sent.sink);
    }
  }

  /** What one call may do to the machine. */
  predicate Effect(s: Sink, t: Sink, call: CoreCall) {
    if call.CoreCallInitialize? then Still(s, t) && (s.synchronized ==> t == s)
    else CoreMove(s, t) || (IsSubmission(call) && Moves(s, t, call.now))
  }

  /** Every call other than a worker's submission leaves the machine without new
      motion, re-arms nothing, and is without effect on a disarmed sink. */
  lemma OnlySubmissionsMove(cfg: CoreConfig, c: Core, call: CoreCall, ok: bool)
    requires CoreInv(cfg, c)
    ensures Effect(c.sink, PerformCore(cfg, c, call, ok).core.sink, call)
  {
    if IsPolicyCall(call) {
      PolicyCallMove(cfg, c, call, ok);
    } else {
      OwnerCallMove(cfg, c, call, ok);
    }
  }

  lemma PolicyCallMove(cfg: CoreConfig, c: Core, call: CoreCall, ok: bool)
    requires CoreInv(cfg, c) && IsPolicyCall(call)
    ensures Effect(c.sink, PerformCore(cfg, c, call, ok).core.sink, call)
  {
    match call
    case CoreCallActivateRl(now) => ActivateRlMove(cfg, c, now, ok);
    case CoreCallActivateAct(maxSteps, now) => ActivateActMove(cfg, c, maxSteps, now, ok);
    case CoreCallSubmitAct(p, now) => SubmitActMove(cfg, c, p, now, ok);
    case CoreCallSendRl(p, now, wallMs) => SendRlMove(cfg, c, p, now, wallMs, ok);
    case CoreCallStopRl(now) => StopMove(cfg, c, now, ok);
    case CoreCallDisconnect(now) => DisconnectMove(cfg, c, now, ok);
  }

  lemma OwnerCallMove(cfg: CoreConfig, c: Core, call: CoreCall, ok: bool)
    requires CoreInv(cfg, c) && !IsPolicyCall(call)
    ensures Effect(c.sink, PerformCore(cfg, c, call, ok).core.sink, call)
  {
    match call
    case CoreCallInitialize(f) =>
    case CoreCallObserve(f) => ObserveMove(cfg, c, f, ok);
    case CoreCallInvalidate(now, alive) => InvalidateMove(cfg, c, now, alive, ok);
    case CoreCallRenew(leaseMs, now) => RenewMove(cfg, c, leaseMs, now, ok);
    case CoreCallTick(now) => TickMove(cfg, c, now, ok);
    case CoreCallDisarm(now) => DisarmMove(cfg, c, now, ok);
  }
}
