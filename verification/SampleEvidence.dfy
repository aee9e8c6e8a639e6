/** What a handoff sample reports did happen: its two zeros and its first motion are
    commands of the log, and rows echoed them at the times it gives. */
module SampleEvidence {
  import opened Wrappers
  import opened ResidentMotion
  import opened ResidentCommands
  import opened ResidentSink
  import opened HandoffInvariant
  import opened SinkPreservation
  import opened SinkTheorems
  import opened SinkEffects
  import opened MotionClaims
  import opened HandoffEvidence
  import opened HandoffProgress

  /** A zero of this number, generation and mode was written, and a row received
      at that time echoed it. */
  ghost predicate ZeroEchoedAt(log: seq<Write>, seen: seq<Seen>, number: Sequence, at: nat, generation: nat,
                               mode: ControlMode, safe: bool) {
    exists k, j ::
      && 0 <= k < |log| && 0 <= j < |seen| && k < seen[j].at
      && log[k].commandSeq == number && log[k].generation == generation && log[k].mode == mode
      && log[k].action == ZERO_ACTION && EchoesZero(seen[j].frame, log[k]) && seen[j].frame.receivedNs == at
      && (safe ==> SafeFrame(seen[j].frame, mode))
  }

  predicate EchoesCommand(f: Telemetry, w: Write) {
    f.rxSeq == w.commandSeq && CommandLive(f) && f.mode == Some(w.mode)
  }

  /** The motion was written with that number, action and time, and echoed then. */
  ghost predicate MotionEchoedAt(log: seq<Write>, seen: seq<Seen>, x: HandoffSample) {
    exists k, j ::
      && 0 <= k < |log| && 0 <= j < |seen| && k < seen[j].at
      && log[k].commandSeq == x.firstSeq && log[k].generation == x.generation && log[k].action == x.firstAction
      && Nonzero(log[k]) && log[k].at == x.firstWriteNs
      && EchoesCommand(seen[j].frame, log[k]) && seen[j].frame.receivedNs == x.firstAckNs
  }

  ghost predicate SampleHappened(log: seq<Write>, seen: seq<Seen>, x: HandoffSample) {
    && ZeroEchoedAt(log, seen, x.terminalSeq, x.terminalAckNs, x.generation, x.source.mode, false)
    && ZeroEchoedAt(log, seen, x.targetSeq, x.targetAckNs, x.generation, x.target.mode, true)
    && MotionEchoedAt(log, seen, x)
  }

  ghost predicate SamplesHappened(s: Sink) {
    forall i | 0 <= i < |s.samples| :: SampleHappened(s.log, s.seen, s.samples[i])
  }

  /** What has been collected of the handoff in progress. */
  ghost predicate CollectedHappened(s: Sink) {
    Operational(s) && s.measurement.Some? ==>
      var m := s.measurement.value;
      && Owner(s.authority) == Some(m.target)
      && ZeroEchoedAt(s.log, s.seen, m.terminalSeq, m.terminalAckNs, m.generation, m.source.mode, false)
      && (m.targetSeq.Some? && m.targetAckNs.Some? ==>
            ZeroEchoedAt(s.log, s.seen, m.targetSeq.value, m.targetAckNs.value, m.generation, m.target.mode, true))
  }

  lemma ZeroEchoedGrows(s: Sink, t: Sink, number: Sequence, at: nat, generation: nat, mode: ControlMode, safe: bool)
    requires ZeroEchoedAt(s.log, s.seen, number, at, generation, mode, safe) && s.log <= t.log && s.seen <= t.seen
    ensures ZeroEchoedAt(t.log, t.seen, number, at, generation, mode, safe)
  {
    var k, j :|
      && 0 <= k < |s.log| && 0 <= j < |s.seen| && k < s.seen[j].at
      && s.log[k].commandSeq == number && s.log[k].generation == generation && s.log[k].mode == mode
      && s.log[k].action == ZERO_ACTION && EchoesZero(s.seen[j].frame, s.log[k]) && s.seen[j].frame.receivedNs == at
      && (safe ==> SafeFrame(s.seen[j].frame, mode));
    assert t.log[k] == s.log[k] && t.seen[j] == s.seen[j];
  }

  lemma SampleStays(s: Sink, t: Sink, x: HandoffSample)
    requires SampleHappened(s.log, s.seen, x) && s.log <= t.log && s.seen <= t.seen
    ensures SampleHappened(t.log, t.seen, x)
  {
    ZeroEchoedGrows(s, t, x.terminalSeq, x.terminalAckNs, x.generation, x.source.mode, false);
    ZeroEchoedGrows(s, t, x.targetSeq, x.targetAckNs, x.generation, x.target.mode, true);
    var k, j :|
      && 0 <= k < |s.log| && 0 <= j < |s.seen| && k < s.seen[j].at
      && s.log[k].commandSeq == x.firstSeq && s.log[k].generation == x.generation && s.log[k].action == x.firstAction
      && Nonzero(s.log[k]) && s.log[k].at == x.firstWriteNs
      && EchoesCommand(s.seen[j].frame, s.log[k]) && s.seen[j].frame.receivedNs == x.firstAckNs;
    assert t.log[k] == s.log[k] && t.seen[j] == s.seen[j];
  }

  lemma SamplesStay(s: Sink, t: Sink)
    requires SamplesHappened(s) && t.samples == s.samples && s.log <= t.log && s.seen <= t.seen
    ensures SamplesHappened(t)
  {
    forall i | 0 <= i < |t.samples| ensures SampleHappened(t.log, t.seen, t.samples[i]) {
      SampleStays(s, t, s.samples[i]);
    }
  }

  /** The evidence is kept, or dropped. */
  lemma CollectedStays(s: Sink, t: Sink)
    requires CollectedHappened(s) && s.log <= t.log && s.seen <= t.seen && (Operational(t) ==> Operational(s))
    requires Operational(t) && t.measurement.Some? ==>
               t.measurement == s.measurement && Owner(t.authority) == Owner(s.authority)
    ensures CollectedHappened(t)
  {
    if Operational(t) && t.measurement.Some? {
      var m := s.measurement.value;
      ZeroEchoedGrows(s, t, m.terminalSeq, m.terminalAckNs, m.generation, m.source.mode, false);
      if m.targetSeq.Some? && m.targetAckNs.Some? {
        ZeroEchoedGrows(s, t, m.targetSeq.value, m.targetAckNs.value, m.generation, m.target.mode, true);
      }
    }
  }

  // ---------- calls without a row ----------

  predicate MeasurementKept(s: Sink, t: Sink) {
    Operational(t) ==> Operational(s) && (t.measurement.None? || t.measurement == s.measurement)
  }

  lemma StopDropsMeasurement(s: Sink, now: nat, reason: Option<Reason>, ok: bool)
    ensures StopAndZero(s, now, reason, ok).sink.measurement.None?
    ensures Operational(StopAndZero(s, now, reason, ok).sink) ==> Operational(s)
  {}

  lemma SubmitMeasurement(cfg: Config, s: Sink, c: MotionCandidate, now: nat, ok: bool)
    ensures MeasurementKept(s, SubmitCandidate(cfg, s, c, now, ok).sink)
  {
    StopDropsMeasurement(s, now, Some(SafetyRejected), ok);
  }

  lemma TickMeasurement(cfg: Config, s: Sink, now: nat, ok: bool)
    ensures MeasurementKept(s, Tick(cfg, s, now, ok).sink)
  {
    StopDropsMeasurement(s, now, Some(CandidateLeaseExpired), ok);
    StopDropsMeasurement(s, now, Some(StateWatchdog), ok);
    StopDropsMeasurement(s.(lease := None), now, Some(StateWatchdog), ok);
  }

  lemma OthersKeepMeasurement(cfg: Config, s: Sink, call: Call, ok: bool)
    requires !call.CallInitialize? && !call.CallObserve? && !call.CallInvalidate?
    ensures MeasurementKept(s, Perform(cfg, s, call, ok).sink)
  {
    match call
    case CallHandoff(b, now) =>
    case CallStop(now) => StopDropsMeasurement(s, now, None, ok);
    case CallSourceStop(b, g, now) => StopDropsMeasurement(s, now, None, ok);
    case CallSubmit(c, now) => SubmitMeasurement(cfg, s, c, now, ok);
    case CallTick(now) => TickMeasurement(cfg, s, now, ok);
    case CallDisarm(now) =>
  }

  lemma MeasuredOwnerStays(s: Sink, t: Sink)
    requires EvidenceOk(s) && EvidenceOk(t) && OwnerKept(s.authority, t.authority)
    requires t.measurement.Some? && t.measurement == s.measurement
    ensures Owner(t.authority) == Owner(s.authority)
  {}

  lemma OthersKeepEvidence(cfg: Config, s: Sink, call: Call, ok: bool)
    requires Inv(s) && SamplesHappened(s) && CollectedHappened(s)
    requires !call.CallInitialize? && !call.CallObserve? && !call.CallInvalidate?
    ensures var t := Perform(cfg, s, call, ok).sink; SamplesHappened(t) && CollectedHappened(t)
  {
    var t := Perform(cfg, s, call, ok).sink;
    CallExtends(cfg, s, call, ok);
    OtherCallsKeepSamples(cfg, s, call, ok);
    SamplesStay(s, t);
    OthersKeepMeasurement(cfg, s, call, ok);
    if Operational(t) && t.measurement.Some? {
      CallOwner(cfg, s, call, ok);
      MeasuredOwnerStays(s, t);
    }
    CollectedStays(s, t);
  }

  lemma CallOwner(cfg: Config, s: Sink, call: Call, ok: bool)
    requires Inv(s) && Operational(s) && Operational(Perform(cfg, s, call, ok).sink)
    ensures var t := Perform(cfg, s, call, ok).sink;
      EvidenceOk(s) && EvidenceOk(t) && OwnerKept(s.authority, t.authority)
  {
    PerformKeeps(cfg, s, call, ok);
    CallMoves(cfg, s, call, ok);
  }

  // ---------- rows ----------

  /** The row that acknowledges a zero echoed the last command. */
  lemma AckIsEvidence(cfg: Config, h: Sink, f: Telemetry)
    requires Operational(h) && SinkAgreesWithAuthority(h) && WellShaped(h.authority) && Observing(h, f)
    requires h.pendingAck.Some? && AckMatches(cfg, h, h.pendingAck.value, f)
    ensures var p := h.pendingAck.value;
      ZeroEchoedAt(h.log, h.seen, p.commandSeq, f.receivedNs, p.generation, p.mode, p.purpose.TargetClaim?)
  {
    var k, j := |h.log| - 1, |h.seen| - 1;
    assert EchoesZero(h.seen[j].frame, h.log[k]);
  }

  lemma AckGrows(cfg: Config, h: Sink, f: Telemetry, ok: bool)
    ensures var t := AcknowledgePhase(cfg, h, f, ok).sink; h.log <= t.log && t.seen == h.seen && t.samples == h.samples
  {}

  lemma TerminalCollects(cfg: Config, h: Sink, f: Telemetry, ok: bool)
    requires Operational(h) && SinkAgreesWithAuthority(h) && WellShaped(h.authority) && Observing(h, f) && EvidenceOk(h)
    requires h.pendingAck.Some? && AckMatches(cfg, h, h.pendingAck.value, f) && h.pendingAck.value.purpose.TerminalSource?
    requires CollectedHappened(h)
    ensures CollectedHappened(AcknowledgePhase(cfg, h, f, ok).sink)
  {
    var t := AcknowledgePhase(cfg, h, f, ok).sink;
    var p := h.pendingAck.value;
    AckIsEvidence(cfg, h, f);
    AckGrows(cfg, h, f, ok);
    ZeroEchoedGrows(h, t, p.commandSeq, f.receivedNs, p.generation, p.mode, false);
  }

  lemma TargetCollects(cfg: Config, h: Sink, f: Telemetry, ok: bool)
    requires Operational(h) && SinkAgreesWithAuthority(h) && WellShaped(h.authority) && Observing(h, f) && EvidenceOk(h)
    requires h.pendingAck.Some? && AckMatches(cfg, h, h.pendingAck.value, f) && h.pendingAck.value.purpose.TargetClaim?
    requires CollectedHappened(h)
    ensures CollectedHappened(AcknowledgePhase(cfg, h, f, ok).sink)
  {
    AckIsEvidence(cfg, h, f);
  }

  lemma AckCollects(cfg: Config, h: Sink, f: Telemetry, ok: bool)
    requires Operational(h) && SinkAgreesWithAuthority(h) && WellShaped(h.authority) && Observing(h, f) && EvidenceOk(h)
    requires CollectedHappened(h)
    ensures CollectedHappened(AcknowledgePhase(cfg, h, f, ok).sink)
  {
    if h.pendingAck.Some? && AckMatches(cfg, h, h.pendingAck.value, f) {
      if h.pendingAck.value.purpose.TerminalSource? {
        TerminalCollects(cfg, h, f, ok);
      } else {
        TargetCollects(cfg, h, f, ok);
      }
    }
  }

  /** The sample the echo of the first motion draws. */
  lemma DrawnSampleHappened(s: Sink, f: Telemetry)
    requires EvidenceOk(s) && Operational(s) && CollectedHappened(s) && s.firstNonzero.Some?
    requires FirstNonzeroMatches(s.firstNonzero.value, f) && Observing(s, f)
    ensures s.measurement.Some? && s.measurement.value.targetSeq.Some? && s.measurement.value.targetAckNs.Some?
    ensures var m, p := s.measurement.value, s.firstNonzero.value;
      SampleHappened(s.log, s.seen, HandoffSample(m.generation, m.source, m.target, m.terminalSeq, m.terminalAckNs,
        m.targetSeq.value, m.targetAckNs.value, p.commandSeq, p.action, p.writeNs, f.receivedNs))
  {
    var k, j := |s.log| - 1, |s.seen| - 1;
    assert EchoesCommand(s.seen[j].frame, s.log[k]);
  }

  lemma FirstKeepsHistory(s: Sink, f: Telemetry)
    ensures var t := FirstNonzeroPhase(s, f).sink;
      && t.log == s.log && t.seen == s.seen && Operational(t) == Operational(s)
      && (t.measurement.None? || t.measurement == s.measurement) && Owner(t.authority) == Owner(s.authority)
  {}

  lemma FirstIsEvidence(s: Sink, f: Telemetry)
    requires Inv(s) && Operational(s) && s.telemetry == Some(f) && (s.firstNonzero.Some? ==> Observing(s, f))
    requires SamplesHappened(s) && CollectedHappened(s)
    ensures var t := FirstNonzeroPhase(s, f).sink; SamplesHappened(t) && CollectedHappened(t)
  {
    var t := FirstNonzeroPhase(s, f).sink;
    FirstKeepsHistory(s, f);
    CollectedStays(s, t);
    if s.firstNonzero.Some? && FirstNonzeroMatches(s.firstNonzero.value, f) {
      FirstMotionEchoDrawsSample(s, f);
      DrawnSampleHappened(s, f);
    } else {
      SamplesStay(s, t);
    }
  }

  lemma SafetyKeepsMeasurement(cfg: Config, s: Sink, f: Telemetry, ok: bool)
    ensures var t := SafetyPhase(cfg, s, f, ok).sink;
      && s.log <= t.log && t.seen == s.seen && t.samples == s.samples && (Operational(t) ==> Operational(s))
      && (t.measurement.None? || (t.measurement == s.measurement && t.authority == s.authority))
  {
    StopDropsMeasurement(s, f.receivedNs, Some(UnsafeTelemetry), ok);
  }

  lemma SafetyIsEvidence(cfg: Config, s: Sink, f: Telemetry, ok: bool)
    requires SamplesHappened(s) && CollectedHappened(s)
    ensures var t := SafetyPhase(cfg, s, f, ok).sink; SamplesHappened(t) && CollectedHappened(t)
  {
    SafetyKeepsMeasurement(cfg, s, f, ok);
    SamplesStay(s, SafetyPhase(cfg, s, f, ok).sink);
    CollectedStays(s, SafetyPhase(cfg, s, f, ok).sink);
  }

  lemma RestIsEvidence(cfg: Config, s: Sink, f: Telemetry, ok: bool)
    requires Inv(s) && Operational(s) && s.telemetry == Some(f) && (s.firstNonzero.Some? ==> Observing(s, f))
    requires SamplesHappened(s) && CollectedHappened(s)
    ensures var first := FirstNonzeroPhase(s, f).sink; SamplesHappened(first) && CollectedHappened(first)
    ensures var t := SafetyPhase(cfg, FirstNonzeroPhase(s, f).sink, f, ok).sink; SamplesHappened(t) && CollectedHappened(t)
  {
    FirstIsEvidence(s, f);
    SafetyIsEvidence(cfg, FirstNonzeroPhase(s, f).sink, f, ok);
  }

  lemma AckLeavesEvidence(cfg: Config, h: Sink, f: Telemetry, ok: bool)
    requires Inv(h) && Operational(h) && Observing(h, f) && SamplesHappened(h) && CollectedHappened(h)
    ensures var t := AcknowledgePhase(cfg, h, f, ok).sink; SamplesHappened(t) && CollectedHappened(t)
  {
    AckCollects(cfg, h, f, ok);
    AckGrows(cfg, h, f, ok);
    SamplesStay(h, AcknowledgePhase(cfg, h, f, ok).sink);
  }

  lemma AckLeavesRow(cfg: Config, h: Sink, f: Telemetry, ok: bool)
    requires Inv(h) && Operational(h) && Observing(h, f) && !AcknowledgePhase(cfg, h, f, ok).outcome.Failed?
    ensures var t := AcknowledgePhase(cfg, h, f, ok).sink;
      Inv(t) && Operational(t) && t.telemetry == Some(f) && (t.firstNonzero.Some? ==> Observing(t, f))
  {
    AckKeeps(cfg, h, f, ok);
    AckKeepsSamples(cfg, h, f, ok);
    AckStaysOperational(cfg, h, f, ok);
  }

  /** A row ends with the sink of the last phase it reached. */
  lemma RowEndsInPhase(cfg: Config, h: Sink, f: Telemetry, ok: bool)
    ensures var ack := AcknowledgePhase(cfg, h, f, ok); var first := FirstNonzeroPhase(ack.sink, f);
      ProcessRow(cfg, h, f, ok).sink ==
        if ack.outcome.Failed? then ack.sink
        else if first.outcome.Failed? then first.sink
        else SafetyPhase(cfg, first.sink, f, ok).sink
  {}

  lemma AckThenRest(cfg: Config, h: Sink, f: Telemetry, ok: bool, ack: Step)
    requires ack == AcknowledgePhase(cfg, h, f, ok)
    requires SamplesHappened(ack.sink) && CollectedHappened(ack.sink)
    requires !ack.outcome.Failed? ==>
               && Inv(ack.sink) && Operational(ack.sink) && ack.sink.telemetry == Some(f)
               && (ack.sink.firstNonzero.Some? ==> Observing(ack.sink, f))
    ensures var t := ProcessRow(cfg, h, f, ok).sink; SamplesHappened(t) && CollectedHappened(t)
  {
    RowEndsInPhase(cfg, h, f, ok);
    if !ack.outcome.Failed? {
      RestIsEvidence(cfg, ack.sink, f, ok);
    }
  }

  lemma ProcessIsEvidence(cfg: Config, h: Sink, f: Telemetry, ok: bool)
    requires Inv(h) && Operational(h) && Observing(h, f) && SamplesHappened(h) && CollectedHappened(h)
    ensures var t := ProcessRow(cfg, h, f, ok).sink; SamplesHappened(t) && CollectedHappened(t)
  {
    AckLeavesEvidence(cfg, h, f, ok);
    if !AcknowledgePhase(cfg, h, f, ok).outcome.Failed? {
      AckLeavesRow(cfg, h, f, ok);
    }
    AckThenRest(cfg, h, f, ok, AcknowledgePhase(cfg, h, f, ok));
  }

  lemma RecordedStays(s: Sink, f: Telemetry)
    requires SamplesHappened(s) && CollectedHappened(s)
    ensures SamplesHappened(Recorded(s, f)) && CollectedHappened(Recorded(s, f))
    ensures var h := Recorded(s, f).(telemetry := Some(f)); SamplesHappened(h) && CollectedHappened(h)
  {
    SamplesStay(s, Recorded(s, f));
    CollectedStays(s, Recorded(s, f));
  }

  lemma RowIsEvidence(cfg: Config, s: Sink, f: Telemetry, ok: bool)
    requires Inv(s) && s.synchronized && SamplesHappened(s) && CollectedHappened(s)
    ensures var t := ObserveLocked(cfg, s, f, ok).sink; SamplesHappened(t) && CollectedHappened(t)
  {
    RecordedStays(s, f);
    if Operational(s) && !Regresses(s, f) {
      RowKeeps(s, f);
      ProcessIsEvidence(cfg, Recorded(s, f).(telemetry := Some(f)), f, ok);
    }
  }

  lemma CallIsEvidence(cfg: Config, s: Sink, call: Call, ok: bool)
    requires Inv(s) && SamplesHappened(s) && CollectedHappened(s)
    ensures var t := Perform(cfg, s, call, ok).sink; SamplesHappened(t) && CollectedHappened(t)
  {
    if call.CallObserve? {
      if s.synchronized { RowIsEvidence(cfg, s, call.frame, ok); }
    } else if call.CallInvalidate? {
      if s.synchronized { RowIsEvidence(cfg, s, InvalidRow(s.telemetry.value, call.now, call.alive), ok); }
    } else if !call.CallInitialize? {
      OthersKeepEvidence(cfg, s, call, ok);
    }
  }

  /** Over every run: each sample names two zeros of its own generation that were
      written and echoed at the times it gives, the first in the mode of the policy
      handed over from, the second by a safe row in the mode of the policy handed
      over to, and the motion after them with the echo of that. */
  lemma {:induction false} EverySampleHappened(cfg: Config, calls: seq<TimedCall>)
    ensures SamplesHappened(Run(cfg, calls)) && CollectedHappened(Run(cfg, calls))
  {
    if calls != [] {
      var last := calls[|calls| - 1];
      EverySampleHappened(cfg, calls[..|calls| - 1]);
      EveryRunKeepsInvariant(cfg, calls[..|calls| - 1]);
      CallIsEvidence(cfg, Run(cfg, calls[..|calls| - 1]), last.call, last.ok);
    }
  }
}
