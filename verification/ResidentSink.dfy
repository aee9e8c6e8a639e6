/** The atomic STM32 write boundary (edge_runtime/resident_sink.py), as the
    state every method of ResidentCommandSink sees under its one lock and one
    step function for each method.  The class that performs these steps in place
    is in ResidentCommandSink.dfy.

    Two histories are kept beside the fields: log, the commands the serial port
    accepted, and seen, the telemetry rows handed to the sink, each with the
    number of commands written before it. */
module ResidentSink {
  import opened Wrappers
  import opened ResidentMotion
  import opened ResidentCommands

  datatype Config = Config(maxStateAgeNs: nat, maxFutureSkewNs: nat)

  const IDLE_ZERO_KEEPALIVE_NS := 100_000_000

  datatype Telemetry = Telemetry(
    receivedNs: nat,
    rxSeq: Sequence,
    commandValid: bool,
    commandTimedOut: bool,
    mode: Option<ControlMode>,
    action: Action,
    controlEnabled: bool,
    estop: bool,
    sensorValid: bool,
    stm32Alive: bool,
    faultFlags: nat)

  datatype WriteResult = WriteResult(
    accepted: bool,
    writePerformed: bool,
    reason: Reason,
    commandSeq: Option<Sequence>,
    mode: Option<ControlMode>,
    effectiveAction: Action)

  datatype PendingAck = PendingAck(generation: nat, mode: ControlMode, purpose: Purpose, commandSeq: Sequence)

  datatype CandidateLease = CandidateLease(binding: PolicyBinding, generation: nat, validUntilNs: nat)

  datatype Measurement = Measurement(
    generation: nat,
    source: PolicyBinding,
    target: PolicyBinding,
    terminalSeq: Sequence,
    terminalAckNs: nat,
    targetSeq: Option<Sequence>,
    targetAckNs: Option<nat>)

  datatype FirstNonzero = FirstNonzero(
    generation: nat, mode: ControlMode, commandSeq: Sequence, action: Action, writeNs: nat)

  datatype HandoffSample = HandoffSample(
    generation: nat,
    source: PolicyBinding,
    target: PolicyBinding,
    terminalSeq: Sequence,
    terminalAckNs: nat,
    targetSeq: Sequence,
    targetAckNs: nat,
    firstSeq: Sequence,
    firstAction: Action,
    firstWriteNs: nat,
    firstAckNs: nat)

  datatype Payload = Payload(zeroClaimMs: real, readyWaitMs: real, firstAckMs: real, latencyMs: real)

  /** _elapsed_ms raises when the two times are out of order. */
  function ElapsedMs(start: nat, end: nat): Option<real> {
    if end < start then None else Some((end - start) as real / 1000000.0)
  }

  /** The durations of ResidentHandoffSample.as_payload; None where it raises. */
  function AsPayload(x: HandoffSample): Option<Payload> {
    var claim := ElapsedMs(x.terminalAckNs, x.targetAckNs);
    var wait := ElapsedMs(x.targetAckNs, x.firstWriteNs);
    var ack := ElapsedMs(x.firstWriteNs, x.firstAckNs);
    var total := ElapsedMs(x.terminalAckNs, x.firstAckNs);
    if claim.None? || wait.None? || ack.None? || total.None? then None
    else Some(Payload(claim.value, wait.value, ack.value, total.value))
  }

  /** One command the serial port took. */
  datatype Write = Write(
    mode: ControlMode,
    action: Action,
    generation: nat,
    source: Option<string>,
    commandSeq: Sequence,
    accepted: bool,
    at: nat,
    reason: Reason)

  datatype Seen = Seen(frame: Telemetry, at: nat)

  datatype Sink = Sink(
    authority: AuthorityState,
    nextSequence: Sequence,
    telemetry: Option<Telemetry>,
    pendingAck: Option<PendingAck>,
    lease: Option<CandidateLease>,
    measurement: Option<Measurement>,
    firstNonzero: Option<FirstNonzero>,
    lastWriteNs: Option<nat>,
    synchronized: bool,
    latched: bool,
    disarmed: bool,
    faulted: bool,
    // the histories
    start: Sequence,
    log: seq<Write>,
    seen: seq<Seen>,
    samples: seq<HandoffSample>)

  const INITIAL_SINK := Sink(INITIAL_AUTHORITY, 0, None, None, None, None, None, None,
                             false, false, false, false, 0, [], [], [])

  datatype Outcome =
    | Done
    | Generation(generation: nat)
    | NextSequence(next: Sequence)
    | Stopped(stopped: bool)
    | Result(result: WriteResult)
    | Failed(error: Error)

  datatype Step = Step(sink: Sink, outcome: Outcome)

  /** is_operational */
  predicate Operational(s: Sink) {
    s.synchronized && !s.disarmed && !s.faulted
  }

  function Refusal(s: Sink): Error
    requires !Operational(s)
  {
    if !s.synchronized then NotInitialized else if s.faulted then OwnerFaulted else OwnerDisarmed
  }

  predicate CommandLive(f: Telemetry) {
    f.commandValid && !f.commandTimedOut
  }

  /** The part of _safety_permits_locked that looks at one row only. */
  predicate SafeFrame(f: Telemetry, mode: ControlMode) {
    && f.controlEnabled && !f.estop && f.sensorValid && f.stm32Alive && f.faultFlags == 0
    && CommandLive(f) && f.mode == Some(mode)
  }

  predicate SafetyPermits(cfg: Config, s: Sink, now: nat, mode: ControlMode) {
    && s.telemetry.Some?
    && s.telemetry.value.receivedNs <= now <= s.telemetry.value.receivedNs + cfg.maxStateAgeNs
    && SafeFrame(s.telemetry.value, mode)
  }

  function Unmeasured(s: Sink): Sink {
    s.(measurement := None, firstNonzero := None)
  }

  function Rejection(reason: Reason, mode: Option<ControlMode>): Outcome {
    Result(WriteResult(false, false, reason, None, mode, ZERO_ACTION))
  }

  /** The command _write_locked builds from the authority snapshot. */
  function Command(s: Sink, mode: ControlMode, action: Action, now: nat, reason: Reason, accepted: bool): Write {
    var binding := if reason.TargetModeClaim? then s.authority.target else s.authority.active;
    Write(mode, action, s.authority.generation, if binding.None? then None else Some(binding.value.source),
          s.nextSequence, accepted, now, reason)
  }

  function Appended(s: Sink, w: Write): Sink {
    s.(nextSequence := Successor(w.commandSeq), lastWriteNs := Some(w.at), log := s.log + [w])
  }

  /** A failed write latches the sink until restart; next tells whether the
      encoder had already consumed the sequence number. */
  function Faulted(s: Sink, next: Sequence): Sink {
    s.(nextSequence := next, measurement := None, firstNonzero := None, faulted := true, disarmed := true)
  }

  /** _write_locked.  ok tells whether the serial port took the whole line. */
  function WriteCommand(s: Sink, mode: ControlMode, action: Action, now: nat, reason: Reason, accepted: bool, ok: bool)
    : Step
  {
    if !Encodable(mode, action) then Step(Faulted(s, s.nextSequence), Failed(EncodingRefused))
    else if !ok then Step(Faulted(s, Successor(s.nextSequence)), Failed(SerialFault))
    else
      Step(Appended(s, Command(s, mode, action, now, reason, accepted)),
           Result(WriteResult(accepted, true, reason, Some(s.nextSequence), Some(mode), action)))
  }

  function PurposeReason(p: Purpose): Reason {
    if p.TerminalSource? then TerminalSourceZero else TargetModeClaim
  }

  /** _issue_pending_zero_locked */
  function IssuePendingZero(s: Sink, now: nat, reason: Option<Reason>, ok: bool): Step {
    match PendingZeroOf(s.authority)
    case BrokenPhase => Step(s, Failed(PhaseWithoutBinding))
    case NothingPending => Step(s.(pendingAck := None), Done)
    case ZeroPending(zero) =>
      var why := if reason.Some? then reason.value else PurposeReason(zero.purpose);
      var w := WriteCommand(s, zero.mode, ZERO_ACTION, now, why, false, ok);
      if w.outcome.Failed? then w
      else Step(w.sink.(pendingAck := Some(PendingAck(zero.generation, zero.mode, zero.purpose, s.nextSequence))),
                w.outcome)
  }

  /** The stop sequence that request_stop, request_source_stop, the lease check
      and _revoke_for_safety_locked share. */
  function StopAndZero(s: Sink, now: nat, reason: Option<Reason>, ok: bool): Step {
    IssuePendingZero(
      Unmeasured(s).(authority := StopRequested(s.authority, now), lease := None, latched := true, pendingAck := None),
      now, reason, ok)
  }

  function RevokeForSafety(s: Sink, now: nat, reason: Reason, ok: bool): Step {
    var stop := StopAndZero(s, now, Some(reason), ok);
    if stop.outcome.Done? then Step(stop.sink, Failed(RevocationWithoutZero)) else stop
  }

  function Initialize(s: Sink, f: Telemetry): Step {
    if s.synchronized then Step(s, Failed(AlreadyInitialized))
    else
      var next := Synchronized(f.rxSeq, f.commandValid || f.commandTimedOut);
      Step(s.(nextSequence := next, start := next, telemetry := Some(f), synchronized := true), NextSequence(next))
  }

  function RequestHandoff(s: Sink, binding: PolicyBinding, now: nat, ok: bool): Step {
    if !Operational(s) then Step(s, Failed(Refusal(s)))
    else
      var a := HandoffRequested(s.authority, binding, now);
      var zero := IssuePendingZero(Unmeasured(s).(authority := a, lease := None, latched := false), now, None, ok);
      if zero.outcome.Failed? then zero else Step(zero.sink, Generation(a.generation))
  }

  function RequestStop(s: Sink, now: nat, ok: bool): Step {
    if !Operational(s) then Step(s, Failed(Refusal(s)))
    else
      var stop := StopAndZero(s, now, None, ok);
      if stop.outcome.Failed? then stop else Step(stop.sink, Generation(s.authority.generation + 1))
  }

  function RequestSourceStop(s: Sink, binding: PolicyBinding, generation: nat, now: nat, ok: bool): Step {
    if !Operational(s) then Step(s, Failed(Refusal(s)))
    else if s.authority.generation != generation ||
            (s.authority.active != Some(binding) && s.authority.target != Some(binding)) then
      Step(s, Stopped(false))
    else
      var stop := StopAndZero(s, now, None, ok);
      if stop.outcome.Failed? then stop else Step(stop.sink, Stopped(true))
  }

  predicate AckMatches(cfg: Config, s: Sink, p: PendingAck, f: Telemetry) {
    && f.rxSeq == p.commandSeq && CommandLive(f) && f.mode == Some(p.mode) && f.action == ZERO_ACTION
    && (p.purpose.TargetClaim? ==> SafetyPermits(cfg, s, f.receivedNs, p.mode))
  }

  predicate FirstNonzeroMatches(p: FirstNonzero, f: Telemetry) {
    f.rxSeq == p.commandSeq && CommandLive(f) && f.mode == Some(p.mode)
  }

  /** resident_sink.py:393-421: what one acknowledged zero adds to the evidence. */
  function MeasurementAfterAck(s: Sink, p: PendingAck, f: Telemetry): Option<Measurement> {
    if p.purpose.TerminalSource? then
      if s.authority.active.Some? && s.authority.target.Some? then
        Some(Measurement(p.generation, s.authority.active.value, s.authority.target.value,
                         p.commandSeq, f.receivedNs, None, None))
      else s.measurement
    else if s.measurement.Some? && s.measurement.value.generation == p.generation then
      Some(s.measurement.value.(targetSeq := Some(p.commandSeq), targetAckNs := Some(f.receivedNs)))
    else s.measurement
  }

  /** resident_sink.py:379-424 */
  function AcknowledgePhase(cfg: Config, s: Sink, f: Telemetry, ok: bool): Step {
    if s.pendingAck.None? || !AckMatches(cfg, s, s.pendingAck.value, f) then Step(s, Done)
    else
      var p := s.pendingAck.value;
      match ZeroAcknowledged(s.authority, p.generation, p.mode, ZERO_ACTION, f.receivedNs)
      case Raised(e) => Step(s, Failed(e))
      case Ok(a) =>
        var t := s.(authority := a, measurement := MeasurementAfterAck(s, p, f), pendingAck := None);
        match PendingZeroOf(a)
        case BrokenPhase => Step(t, Failed(PhaseWithoutBinding))
        case NothingPending => Step(t, Done)
        case ZeroPending(_) => IssuePendingZero(t, f.receivedNs, None, ok)
  }

  /** resident_sink.py:426-451 */
  function FirstNonzeroPhase(s: Sink, f: Telemetry): Step {
    if s.firstNonzero.None? || !FirstNonzeroMatches(s.firstNonzero.value, f) then Step(s, Done)
    else
      var p := s.firstNonzero.value;
      if s.measurement.None? || s.measurement.value.generation != p.generation then
        Step(s, Failed(MeasurementInconsistent))
      else
        var m := s.measurement.value;
        match LatencyRecorded(s.authority, m.generation, m.terminalAckNs, f.receivedNs)
        case Raised(e) => Step(s, Failed(e))
        case Ok(a) =>
          if m.targetSeq.None? || m.targetAckNs.None? then
            Step(s.(authority := a), Failed(EvidenceIncomplete))
          else
            var sample := HandoffSample(m.generation, m.source, m.target, m.terminalSeq, m.terminalAckNs,
                                        m.targetSeq.value, m.targetAckNs.value,
                                        p.commandSeq, p.action, p.writeNs, f.receivedNs);
            Step(Unmeasured(s.(authority := a, samples := s.samples + [sample])), Done)
  }

  /** resident_sink.py:453-469 */
  function SafetyPhase(cfg: Config, s: Sink, f: Telemetry, ok: bool): Step {
    if s.authority.active.None? then Step(s, Done)
    else if !SafetyPermits(cfg, s, f.receivedNs, s.authority.active.value.mode) then
      if s.latched then Step(s, Done) else RevokeForSafety(s, f.receivedNs, UnsafeTelemetry, ok)
    else if s.pendingAck.Some? then Step(s, Done)
    else Step(s.(latched := false), Done)
  }

  function Recorded(s: Sink, f: Telemetry): Sink {
    s.(seen := s.seen + [Seen(f, |s.log|)])
  }

  predicate Regresses(s: Sink, f: Telemetry) {
    s.telemetry.Some? && f.receivedNs < s.telemetry.value.receivedNs
  }

  /** resident_sink.py:379-469: the three phases for the current row. */
  function ProcessRow(cfg: Config, s: Sink, f: Telemetry, ok: bool): Step {
    var ack := AcknowledgePhase(cfg, s, f, ok);
    if ack.outcome.Failed? then ack
    else
      var first := FirstNonzeroPhase(ack.sink, f);
      if first.outcome.Failed? then first
      else
        var safety := SafetyPhase(cfg, first.sink, f, ok);
        if safety.outcome.Failed? then safety else Step(safety.sink, Done)
  }

  /** _observe_telemetry_locked */
  function ObserveLocked(cfg: Config, s: Sink, f: Telemetry, ok: bool): Step {
    var t := Recorded(s, f);
    if Regresses(s, f) then Step(t, Done)
    else if s.disarmed || s.faulted then Step(t.(telemetry := Some(f)), Done)
    else ProcessRow(cfg, t.(telemetry := Some(f)), f, ok)
  }

  function ObserveTelemetry(cfg: Config, s: Sink, f: Telemetry, ok: bool): Step {
    if !s.synchronized then Step(s, Failed(NotInitialized)) else ObserveLocked(cfg, s, f, ok)
  }

  function InvalidRow(previous: Telemetry, now: nat, alive: bool): Telemetry {
    previous.(receivedNs := now, sensorValid := false, stm32Alive := alive)
  }

  function InvalidateTelemetry(cfg: Config, s: Sink, now: nat, alive: bool, ok: bool): Step {
    if !s.synchronized then Step(s, Failed(NotInitialized))
    else if s.telemetry.None? then Step(s, Failed(TelemetryUnavailable))
    else ObserveLocked(cfg, s, InvalidRow(s.telemetry.value, now, alive), ok)
  }

  function Routed(cfg: Config, s: Sink, c: MotionCandidate, now: nat): RoutedCommand {
    Route(s.authority, cfg.maxFutureSkewNs, c, now,
          s.authority.active.Some? && SafetyPermits(cfg, s, now, s.authority.active.value.mode))
  }

  /** resident_sink.py:557-584: the bookkeeping after a candidate was written. */
  function AfterCandidateWrite(s: Sink, c: MotionCandidate, d: RoutedCommand, seqWritten: Sequence, now: nat): Sink {
    var t :=
      if d.accepted && d.effectiveAction != ZERO_ACTION then
        var leased := s.(lease := Some(CandidateLease(PolicyBinding(c.source, c.mode), c.generation, c.validUntilNs)));
        if s.measurement.Some? && s.measurement.value.generation == c.generation && s.firstNonzero.None? then
          leased.(firstNonzero := Some(FirstNonzero(c.generation, c.mode, seqWritten, d.effectiveAction, now)))
        else leased
      else if d.effectiveAction == ZERO_ACTION then
        if d.accepted then s.(lease := None) else Unmeasured(s.(lease := None))
      else s;
    t.(latched := !d.accepted)
  }

  function WriteCandidate(s: Sink, c: MotionCandidate, d: RoutedCommand, now: nat, ok: bool): Step
    requires d.mode.Some?
  {
    var w := WriteCommand(s, d.mode.value, d.effectiveAction, now, d.reason, d.accepted, ok);
    if w.outcome.Failed? then w
    else Step(AfterCandidateWrite(w.sink, c, d, s.nextSequence, now), w.outcome)
  }

  function SubmitCandidate(cfg: Config, s: Sink, c: MotionCandidate, now: nat, ok: bool): Step {
    if !s.synchronized then Step(s, Failed(NotInitialized))
    else if s.faulted then Step(s, Rejection(SinkFaulted, None))
    else if s.disarmed then Step(s, Rejection(TerminallyDisarmed, None))
    else
      var d := Routed(cfg, s, c, now);
      if s.pendingAck.Some? || d.mode.None? || IsPassiveRejection(d.reason) then Step(s, Rejection(d.reason, d.mode))
      else if d.accepted && s.firstNonzero.Some? then Step(s, Rejection(FirstActionAckPending, d.mode))
      else if d.reason.SafetyRejected? then RevokeForSafety(s, now, SafetyRejected, ok)
      else WriteCandidate(s, c, d, now, ok)
  }

  predicate LeaseIsForeign(s: Sink, l: CandidateLease) {
    s.authority.active != Some(l.binding) || s.authority.generation != l.generation
  }

  /** resident_sink.py:613-641; hadLease is the lease read before the checks. */
  function TickWatchdog(cfg: Config, s: Sink, hadLease: bool, now: nat, ok: bool): Step {
    if s.authority.active.None? || s.pendingAck.Some? || s.latched then Step(s, Done)
    else if SafetyPermits(cfg, s, now, s.authority.active.value.mode) then
      if !hadLease && s.firstNonzero.None? && s.lastWriteNs.Some? &&
         now - s.lastWriteNs.value >= IDLE_ZERO_KEEPALIVE_NS
      then WriteCommand(s, s.authority.active.value.mode, ZERO_ACTION, now, IdleKeepalive, false, ok)
      else Step(s, Done)
    else RevokeForSafety(s, now, StateWatchdog, ok)
  }

  function Tick(cfg: Config, s: Sink, now: nat, ok: bool): Step {
    if !s.synchronized then Step(s, Failed(NotInitialized))
    else if s.disarmed || s.faulted then Step(s, Done)
    else if s.lease.Some? && !LeaseIsForeign(s, s.lease.value) && now > s.lease.value.validUntilNs then
      StopAndZero(s, now, Some(CandidateLeaseExpired), ok)
    else
      TickWatchdog(cfg,
                   if s.lease.Some? && LeaseIsForeign(s, s.lease.value) then s.(lease := None) else s,
                   s.lease.Some?, now, ok)
  }

  function DisarmMode(s: Sink): Option<ControlMode> {
    if s.authority.active.Some? then Some(s.authority.active.value.mode)
    else if s.pendingAck.Some? then Some(s.pendingAck.value.mode)
    else None
  }

  function TerminallyDisarm(s: Sink, now: nat, ok: bool): Step {
    if !s.synchronized then Step(s, Failed(NotInitialized))
    else if s.disarmed || s.faulted then
      Step(s, Rejection(if s.faulted then SinkFaulted else TerminallyDisarmed, None))
    else
      var t := Unmeasured(s).(authority := StopRequested(s.authority, now), lease := None, pendingAck := None,
                              disarmed := true, latched := true);
      if DisarmMode(s).None? then Step(t, Rejection(TerminalDisarm, None))
      else WriteCommand(t, DisarmMode(s).value, ZERO_ACTION, now, TerminalDisarm, false, ok)
  }

  /** One call of a public method, with the fate of its serial write. */
  datatype Call =
    | CallInitialize(frame: Telemetry)
    | CallHandoff(binding: PolicyBinding, now: nat)
    | CallStop(now: nat)
    | CallSourceStop(binding: PolicyBinding, generation: nat, now: nat)
    | CallObserve(frame: Telemetry)
    | CallInvalidate(now: nat, alive: bool)
    | CallSubmit(candidate: MotionCandidate, now: nat)
    | CallTick(now: nat)
    | CallDisarm(now: nat)

  function Perform(cfg: Config, s: Sink, call: Call, ok: bool): Step {
    match call
    case CallInitialize(f) => Initialize(s, f)
    case CallHandoff(b, now) => RequestHandoff(s, b, now, ok)
    case CallStop(now) => RequestStop(s, now, ok)
    case CallSourceStop(b, g, now) => RequestSourceStop(s, b, g, now, ok)
    case CallObserve(f) => ObserveTelemetry(cfg, s, f, ok)
    case CallInvalidate(now, alive) => InvalidateTelemetry(cfg, s, now, alive, ok)
    case CallSubmit(c, now) => SubmitCandidate(cfg, s, c, now, ok)
    case CallTick(now) => Tick(cfg, s, now, ok)
    case CallDisarm(now) => TerminallyDisarm(s, now, ok)
  }

  datatype TimedCall = TimedCall(call: Call, ok: bool)

  /** The sink after any interleaving of calls. */
  function Run(cfg: Config, calls: seq<TimedCall>): Sink {
    if calls == [] then INITIAL_SINK
    else
      var last := calls[|calls| - 1];
      Perform(cfg, Run(cfg, calls[..|calls| - 1]), last.call, last.ok).sink
  }
  /** The sink after further calls. */
  function RunFrom(cfg: Config, s: Sink, calls: seq<TimedCall>): Sink
    decreases |calls|
  {
    if calls == [] then s else RunFrom(cfg, Perform(cfg, s, calls[0].call, calls[0].ok).sink, calls[1..])
  }
}
