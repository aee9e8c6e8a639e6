/** Handoffs complete when their zeros are echoed.  A zero that waits is not sent
    again, so this is the only way: each echo, received in order, on a safe row
    where the target claims its mode, moves the handoff one phase on. */
module HandoffProgress {
  import opened Wrappers
  import opened ResidentMotion
  import opened ResidentCommands
  import opened ResidentSink
  import opened HandoffInvariant
  import opened SinkPreservation

  /** The row echoes the zero the sink waits for, not before it was asked for. */
  predicate Echoed(s: Sink, f: Telemetry) {
    && s.log != [] && EchoesZero(f, Last(s)) && Last(s).at <= f.receivedNs && !Regresses(s, f)
  }

  lemma TerminalEchoAcknowledges(cfg: Config, s: Sink, f: Telemetry)
    requires Inv(s) && Operational(s) && s.authority.phase.TerminalZeroPending? && s.authority.target.Some?
    requires s.telemetry == Some(f) && s.log != [] && EchoesZero(f, Last(s)) && Last(s).at <= f.receivedNs
    ensures var step := AcknowledgePhase(cfg, s, f, true); var t := step.sink;
      && !step.outcome.Failed? && t.authority.phase.TargetZeroPending?
      && t.authority == s.authority.(phase := TargetZeroPending, active := None)
      && t.pendingAck.Some? && Operational(t) && t.telemetry == Some(f) && t.firstNonzero.None?
  {}

  lemma TargetEchoActivates(cfg: Config, s: Sink, f: Telemetry)
    requires Inv(s) && Operational(s) && s.authority.phase.TargetZeroPending?
    requires s.telemetry == Some(f) && s.log != [] && EchoesZero(f, Last(s)) && Last(s).at <= f.receivedNs
    requires SafeFrame(f, s.authority.target.value.mode)
    ensures var step := AcknowledgePhase(cfg, s, f, true); var t := step.sink;
      && !step.outcome.Failed? && t.authority.phase.Active? && t.authority.active == s.authority.target
      && t.authority.generation == s.authority.generation && t.pendingAck.None?
      && Operational(t) && t.telemetry == Some(f) && t.firstNonzero == s.firstNonzero
  {}

  /** The first echo of a handoff away from an active policy. */
  lemma TerminalEchoAdvances(cfg: Config, s: Sink, f: Telemetry)
    requires Inv(s) && Operational(s) && Echoed(s, f)
    requires s.authority.phase.TerminalZeroPending? && s.authority.target.Some?
    ensures var t := ObserveTelemetry(cfg, s, f, true).sink;
      && Inv(t) && Operational(t)
      && t.authority == s.authority.(phase := TargetZeroPending, active := None)
  {
    var h := Recorded(s, f).(telemetry := Some(f));
    RowKeeps(s, f);
    TerminalEchoAcknowledges(cfg, h, f);
    var ack := AcknowledgePhase(cfg, h, f, true).sink;
    assert ProcessRow(cfg, h, f, true) == Step(ack, Done);
    ObserveCallKeeps(cfg, s, f, true);
  }

  /** What then waits for its echo is a zero in the target's own mode. */
  lemma TargetZeroIsLast(s: Sink)
    requires Inv(s) && Operational(s) && s.authority.phase.TargetZeroPending?
    ensures s.log != [] && Last(s).action == ZERO_ACTION && Last(s).mode == s.authority.target.value.mode
    ensures Last(s).generation == s.authority.generation
  {}

  /** The echo of the target's own zero. */
  lemma TargetEchoAdvances(cfg: Config, s: Sink, f: Telemetry)
    requires Inv(s) && Operational(s) && Echoed(s, f)
    requires s.authority.phase.TargetZeroPending? && SafeFrame(f, s.authority.target.value.mode)
    ensures var t := ObserveTelemetry(cfg, s, f, true).sink;
      && Inv(t) && Operational(t) && !t.latched && t.pendingAck.None?
      && t.authority.phase.Active? && t.authority.active == s.authority.target
      && t.authority.generation == s.authority.generation
  {
    var h := Recorded(s, f).(telemetry := Some(f));
    RowKeeps(s, f);
    TargetEchoActivates(cfg, h, f);
    ObserveCallKeeps(cfg, s, f, true);
  }

  /** A request on an active owner followed by two good echoes hands over. */
  lemma EchoedHandoffCompletes(cfg: Config, s: Sink, binding: PolicyBinding, now: nat, first: Telemetry, second: Telemetry)
    requires Inv(s) && Operational(s) && s.authority.active.Some?
    requires var r := RequestHandoff(s, binding, now, true).sink;
      && Echoed(r, first)
      && Echoed(ObserveTelemetry(cfg, r, first, true).sink, second) && SafeFrame(second, binding.mode)
    ensures var r := RequestHandoff(s, binding, now, true).sink;
      var t := ObserveTelemetry(cfg, ObserveTelemetry(cfg, r, first, true).sink, second, true).sink;
      && Operational(t) && t.authority.phase.Active? && t.authority.active == Some(binding)
      && t.authority.generation == s.authority.generation + 1
  {
    var r := RequestHandoff(s, binding, now, true).sink;
    HandoffCallKeeps(s, binding, now, true);
    RequestWaits(s, binding, now);
    TerminalEchoAdvances(cfg, r, first);
    TargetEchoAdvances(cfg, ObserveTelemetry(cfg, r, first, true).sink, second);
  }

  lemma RequestWaits(s: Sink, binding: PolicyBinding, now: nat)
    requires Inv(s) && Operational(s) && s.authority.active.Some?
    ensures var r := RequestHandoff(s, binding, now, true).sink;
      && Operational(r) && r.authority == HandoffRequested(s.authority, binding, now)
  {}

  // ---------- the evidence a handoff leaves ----------

  /** The terminal echo opens the measurement of this handoff. */
  lemma TerminalEchoOpensMeasurement(cfg: Config, s: Sink, f: Telemetry)
    requires Inv(s) && Operational(s) && s.authority.phase.TerminalZeroPending? && s.authority.target.Some?
    requires s.telemetry == Some(f) && s.log != [] && EchoesZero(f, Last(s)) && Last(s).at <= f.receivedNs
    ensures AcknowledgePhase(cfg, s, f, true).sink.measurement ==
            Some(Measurement(s.authority.generation, s.authority.active.value, s.authority.target.value,
                             Last(s).commandSeq, f.receivedNs, None, None))
  {
    var p := s.pendingAck.value;
    assert AckMatches(cfg, s, p, f);
    assert Encodable(s.authority.target.value.mode, ZERO_ACTION);
  }

  /** The target echo completes its zero part. */
  lemma TargetEchoCompletesMeasurement(cfg: Config, s: Sink, f: Telemetry)
    requires Inv(s) && Operational(s) && s.authority.phase.TargetZeroPending? && s.measurement.Some?
    requires s.telemetry == Some(f) && s.log != [] && EchoesZero(f, Last(s)) && Last(s).at <= f.receivedNs
    requires SafeFrame(f, s.authority.target.value.mode)
    ensures AcknowledgePhase(cfg, s, f, true).sink.measurement ==
            Some(s.measurement.value.(targetSeq := Some(Last(s).commandSeq), targetAckNs := Some(f.receivedNs)))
  {
    assert AckMatches(cfg, s, s.pendingAck.value, f);
  }

  /** The first motion of a measured handoff is the one whose echo is awaited. */
  lemma FirstMotionIsAwaited(cfg: Config, s: Sink, c: MotionCandidate, now: nat)
    requires Inv(s) && Operational(s) && s.measurement.Some? && s.firstNonzero.None?
    requires Routed(cfg, s, c, now).accepted && c.action != ZERO_ACTION && s.pendingAck.None?
    ensures var t := SubmitCandidate(cfg, s, c, now, true).sink;
      && t.measurement == s.measurement && Operational(t) && t.samples == s.samples
      && t.firstNonzero == Some(FirstNonzero(s.authority.generation, c.mode, s.nextSequence, c.action, now))
  {
    RouteAcceptsExactly(s.authority, cfg.maxFutureSkewNs, c, now,
      s.authority.active.Some? && SafetyPermits(cfg, s, now, s.authority.active.value.mode));
    assert Encodable(c.mode, c.action);
  }

  /** Its echo draws exactly one sample, made of the evidence collected. */
  lemma FirstMotionEchoDrawsSample(s: Sink, f: Telemetry)
    requires Inv(s) && Operational(s) && s.telemetry == Some(f) && s.firstNonzero.Some?
    requires FirstNonzeroMatches(s.firstNonzero.value, f)
    ensures var m, p := s.measurement.value, s.firstNonzero.value; var step := FirstNonzeroPhase(s, f);
      && m.targetSeq.Some? && m.targetAckNs.Some? && step.outcome == Done
      && step.sink.samples == s.samples + [HandoffSample(m.generation, m.source, m.target, m.terminalSeq,
           m.terminalAckNs, m.targetSeq.value, m.targetAckNs.value, p.commandSeq, p.action, p.writeNs, f.receivedNs)]
      && step.sink.measurement.None? && step.sink.firstNonzero.None?
      && step.sink.authority.lastLatencyNs == Some(f.receivedNs - m.terminalAckNs)
  {}

  // ---------- keepalive ----------

  /** An active policy that is not moving the machine, on a safe fresh state, is
      kept alive: a tick writes a zero in its mode exactly when the last command
      is at least 100 ms old, and changes nothing else about the owner. */
  lemma IdlePolicyIsKeptAlive(cfg: Config, s: Sink, now: nat)
    requires Inv(s) && Operational(s) && s.authority.phase.Active? && s.lease.None? && !s.latched
    requires s.firstNonzero.None? && SafetyPermits(cfg, s, now, s.authority.active.value.mode)
    ensures var t := Tick(cfg, s, now, true).sink;
      && t.authority == s.authority && Operational(t)
      && if s.lastWriteNs.Some? && now >= s.lastWriteNs.value + IDLE_ZERO_KEEPALIVE_NS then
           && |t.log| == |s.log| + 1 && Last(t).action == ZERO_ACTION && Last(t).reason == IdleKeepalive
           && Last(t).mode == s.authority.active.value.mode && Last(t).at == now
         else t.log == s.log
  {
    assert Encodable(s.authority.active.value.mode, ZERO_ACTION);
  }
}
