/** resident_sink.py, class ResidentCommandSink, in place: every method changes
    the fields the source changes, in the source's order, and its new State() is
    proved to be the step of module ResidentSink.  The argument ok is the fate of
    the serial write, of which a call makes at most one. */
module ResidentCommandSinks {
  import opened Wrappers
  import opened ResidentMotion
  import opened ResidentCommands
  import opened ResidentSink
  import Spec = ResidentSink

  /** The line on the wire is the logged command. */
  predicate Carries(line: Encoded, w: Write) {
    DecodedMode(line) == w.mode && DecodedAction(line) == w.action && line.commandSeq == w.commandSeq
  }

  class ResidentCommandSink {
    const cfg: Config
    const authority: ResidentMotionAuthority
    const encoder: Stm32ResidentCommandEncoder
    var telemetry: Option<Telemetry>
    var pendingAck: Option<PendingAck>
    var lease: Option<CandidateLease>
    var measurement: Option<Measurement>
    var firstNonzero: Option<FirstNonzero>
    var lastWriteNs: Option<nat>
    var synchronized: bool
    var latched: bool
    var disarmed: bool
    var faulted: bool
    ghost var start: Sequence
    ghost var log: seq<Write>
    ghost var seen: seq<Seen>
    ghost var samples: seq<HandoffSample>
    ghost var wire: seq<Encoded>

    ghost predicate Valid()
      reads this
    {
      && authority.maxFutureSkewNs == cfg.maxFutureSkewNs
      && |wire| == |log| && forall i | 0 <= i < |log| :: Carries(wire[i], log[i])
    }

    ghost function State(): Sink
      reads this, authority, encoder
    {
      Sink(authority.state, encoder.nextSequence, telemetry, pendingAck, lease, measurement, firstNonzero, lastWriteNs,
           synchronized, latched, disarmed, faulted, start, log, seen, samples)
    }

    constructor (cfg: Config)
      ensures Valid() && this.cfg == cfg && State() == INITIAL_SINK
      ensures fresh(authority) && fresh(encoder)
    {
      this.cfg := cfg;
      authority := new ResidentMotionAuthority(cfg.maxFutureSkewNs);
      encoder := new Stm32ResidentCommandEncoder();
      telemetry, pendingAck, lease, measurement, firstNonzero, lastWriteNs := None, None, None, None, None, None;
      synchronized, latched, disarmed, faulted := false, false, false, false;
      start, log, seen, samples, wire := 0, [], [], [], [];
    }

    // ---------- helpers that run under the lock ----------

    method CancelMeasurement()
      requires Valid()
      modifies this
      ensures Valid() && State() == Unmeasured(old(State()))
    {
      measurement := None;
      firstNonzero := None;
    }

    function SafetyPermitsNow(now: nat, mode: ControlMode): (permits: bool)
      reads this, authority, encoder
      ensures permits == SafetyPermits(cfg, State(), now, mode)
    {
      && telemetry.Some?
      && now >= telemetry.value.receivedNs
      && now - telemetry.value.receivedNs <= cfg.maxStateAgeNs
      && SafeFrame(telemetry.value, mode)
    }

    method FaultLocked()
      requires Valid()
      modifies this
      ensures Valid() && State() == Faulted(old(State()), encoder.nextSequence)
    {
      CancelMeasurement();
      faulted := true;
      disarmed := true;
    }

    ghost method RecordWrite(line: Encoded, w: Write)
      requires Valid() && Carries(line, w)
      modifies this`log, this`wire
      ensures Valid() && log == old(log) + [w]
    {
      log := log + [w];
      wire := wire + [line];
    }

    method WriteLocked(mode: ControlMode, action: Action, now: nat, reason: Reason, accepted: bool, ok: bool)
      returns (outcome: Outcome)
      requires Valid()
      modifies this, encoder
      ensures Valid()
      ensures Step(State(), outcome) == WriteCommand(old(State()), mode, action, now, reason, accepted, ok)
    {
      ghost var command := Command(State(), mode, action, now, reason, accepted);
      var sequence := encoder.nextSequence;
      var line := encoder.Encode(mode, action, now);
      if line.None? || !ok {
        FaultLocked();
        return Failed(if line.None? then EncodingRefused else SerialFault);
      }
      lastWriteNs := Some(now);
      RecordWrite(line.value, command);
      outcome := Result(WriteResult(accepted, true, reason, Some(sequence), Some(mode), action));
    }

    method IssuePendingZeroLocked(now: nat, reason: Option<Reason>, ok: bool) returns (outcome: Outcome)
      requires Valid()
      modifies this, encoder
      ensures Valid()
      ensures Step(State(), outcome) == IssuePendingZero(old(State()), now, reason, ok)
    {
      var pending := PendingZeroOf(authority.state);
      if pending.BrokenPhase? { return Failed(PhaseWithoutBinding); }
      if pending.NothingPending? {
        pendingAck := None;
        return Done;
      }
      var zero := pending.zero;
      outcome := WriteLocked(zero.mode, ZERO_ACTION, now,
        if reason.Some? then reason.value else PurposeReason(zero.purpose), false, ok);
      if outcome.Result? {
        pendingAck := Some(PendingAck(zero.generation, zero.mode, zero.purpose, outcome.result.commandSeq.value));
      }
    }

    method StopAndZeroLocked(now: nat, reason: Option<Reason>, ok: bool) returns (outcome: Outcome)
      requires Valid()
      modifies this, authority, encoder
      ensures Valid()
      ensures Step(State(), outcome) == StopAndZero(old(State()), now, reason, ok)
    {
      var _ := authority.RequestStop(now);
      lease := None;
      CancelMeasurement();
      latched := true;
      pendingAck := None;
      outcome := IssuePendingZeroLocked(now, reason, ok);
    }

    method RevokeForSafetyLocked(now: nat, reason: Reason, ok: bool) returns (outcome: Outcome)
      requires Valid()
      modifies this, authority, encoder
      ensures Valid()
      ensures Step(State(), outcome) == RevokeForSafety(old(State()), now, reason, ok)
    {
      outcome := StopAndZeroLocked(now, Some(reason), ok);
      if outcome.Done? { outcome := Failed(RevocationWithoutZero); }
    }

    // ---------- public methods ----------

    method Initialize(f: Telemetry) returns (outcome: Outcome)
      requires Valid()
      modifies this, encoder
      ensures Valid()
      ensures Step(State(), outcome) == Spec.Initialize(old(State()), f)
    {
      if synchronized { return Failed(AlreadyInitialized); }
      var next := encoder.Synchronize(f.rxSeq, f.commandValid || f.commandTimedOut);
      start := next;
      telemetry := Some(f);
      synchronized := true;
      outcome := NextSequence(next);
    }

    function RefusalNow(): (refusal: Option<Error>)
      reads this, authority, encoder
      ensures refusal == if Operational(State()) then None else Some(Refusal(State()))
    {
      if !synchronized then Some(NotInitialized)
      else if faulted then Some(OwnerFaulted)
      else if disarmed then Some(OwnerDisarmed)
      else None
    }

    method RequestHandoff(binding: PolicyBinding, now: nat, ok: bool) returns (outcome: Outcome)
      requires Valid()
      modifies this, authority, encoder
      ensures Valid()
      ensures Step(State(), outcome) == Spec.RequestHandoff(old(State()), binding, now, ok)
    {
      var refusal := RefusalNow();
      if refusal.Some? { return Failed(refusal.value); }
      CancelMeasurement();
      var generation := authority.RequestHandoff(binding, now);
      lease := None;
      latched := false;
      outcome := IssuePendingZeroLocked(now, None, ok);
      if !outcome.Failed? { outcome := Generation(generation); }
    }

    method RequestStop(now: nat, ok: bool) returns (outcome: Outcome)
      requires Valid()
      modifies this, authority, encoder
      ensures Valid()
      ensures Step(State(), outcome) == Spec.RequestStop(old(State()), now, ok)
    {
      var refusal := RefusalNow();
      if refusal.Some? { return Failed(refusal.value); }
      var generation := authority.state.generation + 1;
      outcome := StopAndZeroLocked(now, None, ok);
      if !outcome.Failed? { outcome := Generation(generation); }
    }

    method RequestSourceStop(binding: PolicyBinding, generation: nat, now: nat, ok: bool) returns (outcome: Outcome)
      requires Valid()
      modifies this, authority, encoder
      ensures Valid()
      ensures Step(State(), outcome) == Spec.RequestSourceStop(old(State()), binding, generation, now, ok)
    {
      var refusal := RefusalNow();
      if refusal.Some? { return Failed(refusal.value); }
      var snapshot := authority.state;
      if snapshot.generation != generation || (snapshot.active != Some(binding) && snapshot.target != Some(binding)) {
        return Stopped(false);
      }
      outcome := StopAndZeroLocked(now, None, ok);
      if !outcome.Failed? { outcome := Stopped(true); }
    }

    /** resident_sink.py:393-421 */
    method ExtendEvidence(ghost before: Sink, a: AuthorityState, p: PendingAck, f: Telemetry)
      requires Valid() && before.authority == a && before.measurement == measurement
      modifies this`measurement
      ensures Valid() && measurement == MeasurementAfterAck(before, p, f)
    {
      if p.purpose.TerminalSource? && a.active.Some? && a.target.Some? {
        measurement := Some(Measurement(p.generation, a.active.value, a.target.value,
          p.commandSeq, f.receivedNs, None, None));
      } else if p.purpose.TargetClaim? && measurement.Some? && measurement.value.generation == p.generation {
        measurement := Some(measurement.value.(targetSeq := Some(p.commandSeq), targetAckNs := Some(f.receivedNs)));
      }
    }

    /** The acknowledged zero moves the authority on, extends the evidence and,
        when another zero is now owed, writes it. */
    method AcknowledgeLocked(f: Telemetry, ok: bool) returns (outcome: Outcome)
      requires Valid()
      modifies this, authority, encoder
      ensures Valid()
      ensures Step(State(), outcome) == AcknowledgePhase(cfg, old(State()), f, ok)
    {
      ghost var before := State();
      if pendingAck.None? { return Done; }
      var p := pendingAck.value;
      if !(f.rxSeq == p.commandSeq && CommandLive(f) && f.mode == Some(p.mode) && f.action == ZERO_ACTION) { return Done; }
      if p.purpose.TargetClaim? && !SafetyPermitsNow(f.receivedNs, p.mode) { return Done; }
      assert AckMatches(cfg, before, p, f);
      var beforeAck := authority.state;
      var error := authority.AcknowledgeZero(p.generation, p.mode, ZERO_ACTION, f.receivedNs);
      if error.Some? { return Failed(error.value); }
      ExtendEvidence(before, beforeAck, p, f);
      pendingAck := None;
      var owed := PendingZeroOf(authority.state);
      if owed.BrokenPhase? { return Failed(PhaseWithoutBinding); }
      outcome := Done;
      if owed.ZeroPending? {
        outcome := IssuePendingZeroLocked(f.receivedNs, None, ok);
      }
    }

    method FirstNonzeroLocked(f: Telemetry) returns (outcome: Outcome)
      requires Valid()
      modifies this, authority
      ensures Valid()
      ensures Step(State(), outcome) == FirstNonzeroPhase(old(State()), f)
    {
      if firstNonzero.None? || !FirstNonzeroMatches(firstNonzero.value, f) { return Done; }
      var p := firstNonzero.value;
      if measurement.None? || measurement.value.generation != p.generation { return Failed(MeasurementInconsistent); }
      var m := measurement.value;
      var error := authority.RecordHandoffLatency(m.generation, m.terminalAckNs, f.receivedNs);
      if error.Some? { return Failed(error.value); }
      if m.targetSeq.None? || m.targetAckNs.None? { return Failed(EvidenceIncomplete); }
      samples := samples + [HandoffSample(m.generation, m.source, m.target, m.terminalSeq, m.terminalAckNs,
        m.targetSeq.value, m.targetAckNs.value, p.commandSeq, p.action, p.writeNs, f.receivedNs)];
      CancelMeasurement();
      outcome := Done;
    }

    method SafetyLocked(f: Telemetry, ok: bool) returns (outcome: Outcome)
      requires Valid()
      modifies this, authority, encoder
      ensures Valid()
      ensures Step(State(), outcome) == SafetyPhase(cfg, old(State()), f, ok)
    {
      outcome := Done;
      var active := authority.state.active;
      if active.None? { return; }
      if !SafetyPermitsNow(f.receivedNs, active.value.mode) {
        if !latched { outcome := RevokeForSafetyLocked(f.receivedNs, UnsafeTelemetry, ok); }
        return;
      }
      if pendingAck.Some? { return; }
      latched := false;
    }

    method ObserveTelemetryLocked(f: Telemetry, ok: bool) returns (outcome: Outcome)
      requires Valid()
      modifies this, authority, encoder
      ensures Valid()
      ensures Step(State(), outcome) == ObserveLocked(cfg, old(State()), f, ok)
    {
      seen := seen + [Seen(f, |log|)];
      if telemetry.Some? && f.receivedNs < telemetry.value.receivedNs { return Done; }
      telemetry := Some(f);
      if disarmed || faulted { return Done; }
      outcome := AcknowledgeLocked(f, ok);
      if outcome.Failed? { return; }
      outcome := FirstNonzeroLocked(f);
      if outcome.Failed? { return; }
      outcome := SafetyLocked(f, ok);
      if !outcome.Failed? { outcome := Done; }
    }

    method ObserveTelemetry(f: Telemetry, ok: bool) returns (outcome: Outcome)
      requires Valid()
      modifies this, authority, encoder
      ensures Valid()
      ensures Step(State(), outcome) == Spec.ObserveTelemetry(cfg, old(State()), f, ok)
    {
      if !synchronized { return Failed(NotInitialized); }
      outcome := ObserveTelemetryLocked(f, ok);
    }

    method InvalidateTelemetry(now: nat, alive: bool, ok: bool) returns (outcome: Outcome)
      requires Valid()
      modifies this, authority, encoder
      ensures Valid()
      ensures Step(State(), outcome) == Spec.InvalidateTelemetry(cfg, old(State()), now, alive, ok)
    {
      if !synchronized { return Failed(NotInitialized); }
      if telemetry.None? { return Failed(TelemetryUnavailable); }
      outcome := ObserveTelemetryLocked(
        telemetry.value.(receivedNs := now, sensorValid := false, stm32Alive := alive), ok);
    }

    /** resident_sink.py:550-584: the candidate's command and its bookkeeping. */
    method WriteCandidateLocked(c: MotionCandidate, d: RoutedCommand, now: nat, ok: bool) returns (outcome: Outcome)
      requires Valid() && d.mode.Some?
      modifies this, encoder
      ensures Valid()
      ensures Step(State(), outcome) == WriteCandidate(old(State()), c, d, now, ok)
    {
      outcome := WriteLocked(d.mode.value, d.effectiveAction, now, d.reason, d.accepted, ok);
      if outcome.Failed? { return; }
      if d.accepted && d.effectiveAction != ZERO_ACTION {
        lease := Some(CandidateLease(PolicyBinding(c.source, c.mode), c.generation, c.validUntilNs));
        if measurement.Some? && measurement.value.generation == c.generation && firstNonzero.None? {
          firstNonzero := Some(FirstNonzero(c.generation, c.mode, outcome.result.commandSeq.value,
            outcome.result.effectiveAction, now));
        }
      } else if outcome.result.effectiveAction == ZERO_ACTION {
        lease := None;
        if !d.accepted { CancelMeasurement(); }
      }
      latched := !d.accepted;
    }

    method SubmitCandidate(c: MotionCandidate, now: nat, ok: bool) returns (outcome: Outcome)
      requires Valid()
      modifies this, authority, encoder
      ensures Valid()
      ensures Step(State(), outcome) == Spec.SubmitCandidate(cfg, old(State()), c, now, ok)
    {
      if !synchronized { return Failed(NotInitialized); }
      if faulted { return Rejection(SinkFaulted, None); }
      if disarmed { return Rejection(TerminallyDisarmed, None); }
      var snapshot := authority.state;
      var permits := snapshot.active.Some? && SafetyPermitsNow(now, snapshot.active.value.mode);
      var d := Route(snapshot, authority.maxFutureSkewNs, c, now, permits);
      assert d == Routed(cfg, State(), c, now);
      if pendingAck.Some? || d.mode.None? || IsPassiveRejection(d.reason) { return Rejection(d.reason, d.mode); }
      if d.accepted && firstNonzero.Some? { return Rejection(FirstActionAckPending, d.mode); }
      if d.reason.SafetyRejected? {
        outcome := RevokeForSafetyLocked(now, SafetyRejected, ok);
        return;
      }
      outcome := WriteCandidateLocked(c, d, now, ok);
    }

    /** resident_sink.py:613-641 */
    method WatchdogLocked(hadLease: bool, now: nat, ok: bool) returns (outcome: Outcome)
      requires Valid()
      modifies this, authority, encoder
      ensures Valid()
      ensures Step(State(), outcome) == TickWatchdog(cfg, old(State()), hadLease, now, ok)
    {
      var active := authority.state.active;
      if active.None? || pendingAck.Some? || latched { return Done; }
      if SafetyPermitsNow(now, active.value.mode) {
        if !hadLease && firstNonzero.None? && lastWriteNs.Some? && now - lastWriteNs.value >= IDLE_ZERO_KEEPALIVE_NS {
          outcome := WriteLocked(active.value.mode, ZERO_ACTION, now, IdleKeepalive, false, ok);
          return;
        }
        return Done;
      }
      outcome := RevokeForSafetyLocked(now, StateWatchdog, ok);
    }

    method Tick(now: nat, ok: bool) returns (outcome: Outcome)
      requires Valid()
      modifies this, authority, encoder
      ensures Valid()
      ensures Step(State(), outcome) == Spec.Tick(cfg, old(State()), now, ok)
    {
      if !synchronized { return Failed(NotInitialized); }
      if disarmed || faulted { return Done; }
      var snapshot := authority.state;
      var held := lease;
      if held.Some? {
        if snapshot.active != Some(held.value.binding) || snapshot.generation != held.value.generation {
          lease := None;
        } else if now > held.value.validUntilNs {
          outcome := StopAndZeroLocked(now, Some(CandidateLeaseExpired), ok);
          return;
        }
      }
      outcome := WatchdogLocked(held.Some?, now, ok);
    }

    method EnterDisarm(now: nat)
      requires Valid()
      modifies this, authority
      ensures Valid()
      ensures State() == Unmeasured(old(State())).(
        authority := StopRequested(old(State()).authority, now), lease := None, pendingAck := None,
        disarmed := true, latched := true)
    {
      var _ := authority.RequestStop(now);
      lease := None;
      CancelMeasurement();
      pendingAck := None;
      disarmed := true;
      latched := true;
    }

    method TerminallyDisarm(now: nat, ok: bool) returns (outcome: Outcome)
      requires Valid()
      modifies this, authority, encoder
      ensures Valid()
      ensures Step(State(), outcome) == Spec.TerminallyDisarm(old(State()), now, ok)
    {
      if !synchronized { return Failed(NotInitialized); }
      if disarmed || faulted { return Rejection(if faulted then SinkFaulted else TerminallyDisarmed, None); }
      var snapshot := authority.state;
      var mode := None;
      if snapshot.active.Some? {
        mode := Some(snapshot.active.value.mode);
      } else if pendingAck.Some? {
        mode := Some(pendingAck.value.mode);
      }
      EnterDisarm(now);
      if mode.None? { return Rejection(TerminalDisarm, None); }
      outcome := WriteLocked(mode.value, ZERO_ACTION, now, TerminalDisarm, false, ok);
    }
  }
}
