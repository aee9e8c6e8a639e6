/** The handoff samples the sink emits, over every run. */
module HandoffEvidence {
  import opened Wrappers
  import opened ResidentMotion
  import opened ResidentSink
  import opened HandoffInvariant
  import opened SinkPreservation
  import opened SinkTheorems
  import opened InvalidRows

  /** The sample x, drawn in state s from the row f, is backed by the log: its
      first motion is the last command written, of the current generation. */
  predicate Backed(s: Sink, x: HandoffSample, f: Telemetry) {
    && SampleOk(x) && x.generation == s.authority.generation && x.firstAckNs == f.receivedNs
    && LastIsNonzero(s) && Last(s).generation == x.generation && Last(s).commandSeq == x.firstSeq == f.rxSeq
    && Last(s).action == x.firstAction && Last(s).at == x.firstWriteNs && CommandLive(f) && f.mode == Some(Last(s).mode)
  }

  /** Samples are only appended, one for each generation at most, and backed. */
  ghost predicate SamplesGrow(s: Sink, t: Sink, row: Option<Telemetry>) {
    || t.samples == s.samples
    || (row.Some? && Operational(s) && |t.samples| == |s.samples| + 1 && t.samples[..|s.samples|] == s.samples &&
        Backed(s, t.samples[|s.samples|], row.value) &&
        forall i | 0 <= i < |s.samples| :: s.samples[i].generation < s.authority.generation)
  }

  lemma IssueKeepsSamples(s: Sink, now: nat, reason: Option<Reason>, ok: bool)
    ensures IssuePendingZero(s, now, reason, ok).sink.samples == s.samples
  {}

  lemma StopKeepsSamples(s: Sink, now: nat, reason: Option<Reason>, ok: bool)
    ensures StopAndZero(s, now, reason, ok).sink.samples == s.samples
  {}

  lemma OtherCallsKeepSamples(cfg: Config, s: Sink, call: Call, ok: bool)
    requires !call.CallObserve? && !call.CallInvalidate?
    ensures Perform(cfg, s, call, ok).sink.samples == s.samples
  {
    match call
    case CallHandoff(b, now) =>
      IssueKeepsSamples(Unmeasured(s).(authority := HandoffRequested(s.authority, b, now), lease := None,
                                       latched := false), now, None, ok);
    case CallStop(now) => StopKeepsSamples(s, now, None, ok);
    case CallSourceStop(b, g, now) => StopKeepsSamples(s, now, None, ok);
    case CallSubmit(c, now) => SubmitKeepsSamples(cfg, s, c, now, ok);
    case CallTick(now) => TickKeepsSamples(cfg, s, now, ok);
    case _ =>
  }

  lemma SubmitKeepsSamples(cfg: Config, s: Sink, c: MotionCandidate, now: nat, ok: bool)
    ensures SubmitCandidate(cfg, s, c, now, ok).sink.samples == s.samples
  {
    StopKeepsSamples(s, now, Some(SafetyRejected), ok);
  }

  lemma TickKeepsSamples(cfg: Config, s: Sink, now: nat, ok: bool)
    ensures Tick(cfg, s, now, ok).sink.samples == s.samples
  {
    StopKeepsSamples(s, now, Some(CandidateLeaseExpired), ok);
    StopKeepsSamples(s, now, Some(StateWatchdog), ok);
    StopKeepsSamples(s.(lease := None), now, Some(StateWatchdog), ok);
  }

  lemma SafetyKeepsSamples(cfg: Config, s: Sink, f: Telemetry, ok: bool)
    ensures SafetyPhase(cfg, s, f, ok).sink.samples == s.samples
  {
    StopKeepsSamples(s, f.receivedNs, Some(UnsafeTelemetry), ok);
  }

  lemma ProcessSamples(cfg: Config, s: Sink, f: Telemetry, ok: bool)
    ensures var ack := AcknowledgePhase(cfg, s, f, ok);
      ProcessRow(cfg, s, f, ok).sink.samples ==
        if ack.outcome.Failed? then ack.sink.samples else FirstNonzeroPhase(ack.sink, f).sink.samples
  {
    var ack := AcknowledgePhase(cfg, s, f, ok);
    SafetyKeepsSamples(cfg, FirstNonzeroPhase(ack.sink, f).sink, f, ok);
  }

  lemma RowDrawsBackedSample(cfg: Config, s: Sink, f: Telemetry, ok: bool)
    requires Inv(s) && Operational(s) && Observing(s, f)
    ensures SamplesGrow(s, ProcessRow(cfg, s, f, ok).sink, Some(f))
  {
    var ack := AcknowledgePhase(cfg, s, f, ok).sink;
    ProcessSamples(cfg, s, f, ok);
    AckKeepsSamples(cfg, s, f, ok);
    if ack.firstNonzero.Some? {
      FirstNonzeroDrawsSample(s, f);
    }
  }

  lemma AckKeepsSamples(cfg: Config, s: Sink, f: Telemetry, ok: bool)
    requires Inv(s) && Operational(s)
    ensures AcknowledgePhase(cfg, s, f, ok).sink.samples == s.samples
    ensures AcknowledgePhase(cfg, s, f, ok).sink.firstNonzero.Some? ==> AcknowledgePhase(cfg, s, f, ok).sink == s
  {
    if s.pendingAck.Some? && AckMatches(cfg, s, s.pendingAck.value, f) {
      var p := s.pendingAck.value;
      var ack := ZeroAcknowledged(s.authority, p.generation, p.mode, ZERO_ACTION, f.receivedNs);
      if ack.Ok? {
        var h := s.(authority := ack.value, measurement := MeasurementAfterAck(s, p, f), pendingAck := None);
        IssueKeepsSamples(h, f.receivedNs, None, ok);
        IssueKeepsFirst(h, f.receivedNs, None, ok);
      }
    }
  }

  lemma IssueKeepsFirst(s: Sink, now: nat, reason: Option<Reason>, ok: bool)
    requires s.firstNonzero.None?
    ensures IssuePendingZero(s, now, reason, ok).sink.firstNonzero.None?
  {}

  lemma FirstNonzeroDrawsSample(s: Sink, f: Telemetry)
    requires Inv(s) && Operational(s) && s.telemetry == Some(f)
    ensures FirstNonzeroPhase(s, f).sink.samples == s.samples ||
            (s.firstNonzero.Some? && SamplesGrow(s, FirstNonzeroPhase(s, f).sink, Some(f)))
  {}

  lemma CallsGrowSamples(cfg: Config, s: Sink, call: Call, ok: bool)
    requires Inv(s)
    ensures SamplesGrow(s, Perform(cfg, s, call, ok).sink, RowOf(s, call))
  {
    match call
    case CallObserve(f) => if s.synchronized { RowGrowsSamples(cfg, s, f, ok); }
    case CallInvalidate(now, alive) =>
      if s.synchronized && s.telemetry.Some? { RowGrowsSamples(cfg, s, InvalidRow(s.telemetry.value, now, alive), ok); }
    case _ => OtherCallsKeepSamples(cfg, s, call, ok);
  }

  lemma RowGrowsSamples(cfg: Config, s: Sink, f: Telemetry, ok: bool)
    requires Inv(s) && s.synchronized
    ensures SamplesGrow(s, ObserveLocked(cfg, s, f, ok).sink, Some(f))
  {
    if Operational(s) && !Regresses(s, f) {
      RowKeeps(s, f);
      RowDrawsBackedSample(cfg, Recorded(s, f).(telemetry := Some(f)), f, ok);
    }
  }

  // ---------- over every run ----------

  ghost predicate SamplesInOrder(samples: seq<HandoffSample>) {
    forall i, j | 0 <= i < j < |samples| :: samples[i].generation < samples[j].generation
  }

  lemma OrderGrows(s: Sink, t: Sink, row: Option<Telemetry>)
    requires SamplesGrow(s, t, row) && SamplesInOrder(s.samples)
    requires forall i | 0 <= i < |s.samples| :: SampleOk(s.samples[i])
    ensures SamplesInOrder(t.samples) && forall i | 0 <= i < |t.samples| :: SampleOk(t.samples[i])
  {}

  /** At most one sample for each generation, each with the complete evidence of
      its own two zeros, in time order. */
  lemma {:induction false} OneSamplePerHandoff(cfg: Config, calls: seq<TimedCall>)
    ensures var samples := Run(cfg, calls).samples;
      SamplesInOrder(samples) && forall i | 0 <= i < |samples| :: SampleOk(samples[i])
  {
    if calls != [] {
      var before, last := Run(cfg, calls[..|calls| - 1]), calls[|calls| - 1];
      OneSamplePerHandoff(cfg, calls[..|calls| - 1]);
      EveryRunKeepsInvariant(cfg, calls[..|calls| - 1]);
      CallsGrowSamples(cfg, before, last.call, last.ok);
      OrderGrows(before, Run(cfg, calls), RowOf(before, last.call));
    }
  }

  // ---------- the first motion and the rows of a causal run ----------

  /** The current row does not echo the first motion the sink waits for. */
  predicate FirstUnmatched(s: Sink) {
    Operational(s) && s.firstNonzero.Some? ==>
      s.telemetry.Some? && !FirstNonzeroMatches(s.firstNonzero.value, s.telemetry.value)
  }

  /** What a call may do to the awaited motion: keep it, drop it, or await one that
      carried the next number. */
  predicate FirstMove(s: Sink, t: Sink) {
    Operational(t) ==>
      && Operational(s) && t.telemetry == s.telemetry
      && (t.firstNonzero.None? || t.firstNonzero == s.firstNonzero || t.firstNonzero.value.commandSeq == s.nextSequence)
  }

  lemma FirstMoveKeeps(s: Sink, t: Sink)
    requires FirstUnmatched(s) && FirstMove(s, t) && s.telemetry.Some? && NotAhead(s.nextSequence, s.telemetry.value)
    ensures FirstUnmatched(t)
  {}

  lemma StopFirst(s: Sink, now: nat, reason: Option<Reason>, ok: bool)
    requires Operational(s)
    ensures FirstMove(s, StopAndZero(s, now, reason, ok).sink)
  {}

  lemma SubmitFirst(cfg: Config, s: Sink, c: MotionCandidate, now: nat, ok: bool)
    ensures FirstMove(s, SubmitCandidate(cfg, s, c, now, ok).sink)
  {
    if Operational(s) { StopFirst(s, now, Some(SafetyRejected), ok); }
  }

  lemma TickFirst(cfg: Config, s: Sink, now: nat, ok: bool)
    ensures FirstMove(s, Tick(cfg, s, now, ok).sink)
  {
    if Operational(s) {
      StopFirst(s, now, Some(CandidateLeaseExpired), ok);
      StopFirst(s, now, Some(StateWatchdog), ok);
      StopFirst(s.(lease := None), now, Some(StateWatchdog), ok);
    }
  }

  lemma OtherCallsFirst(cfg: Config, s: Sink, call: Call, ok: bool)
    requires !call.CallInitialize? && !call.CallObserve? && !call.CallInvalidate?
    ensures FirstMove(s, Perform(cfg, s, call, ok).sink)
  {
    match call
    case CallHandoff(b, now) =>
    case CallStop(now) => if Operational(s) { StopFirst(s, now, None, ok); }
    case CallSourceStop(b, g, now) => if Operational(s) { StopFirst(s, now, None, ok); }
    case CallSubmit(c, now) => SubmitFirst(cfg, s, c, now, ok);
    case CallTick(now) => TickFirst(cfg, s, now, ok);
    case CallDisarm(now) =>
  }

  /** A row that matched ends the wait. */
  lemma MatchedFirstIsDropped(s: Sink, f: Telemetry)
    requires Inv(s) && Operational(s) && s.telemetry == Some(f)
    ensures FirstUnmatched(FirstNonzeroPhase(s, f).sink)
    ensures Operational(FirstNonzeroPhase(s, f).sink) && FirstNonzeroPhase(s, f).sink.telemetry == Some(f)
  {}

  lemma SafetyFirst(cfg: Config, s: Sink, f: Telemetry, ok: bool)
    requires Operational(s) && FirstUnmatched(s)
    ensures FirstUnmatched(SafetyPhase(cfg, s, f, ok).sink)
  {
    StopDropsFirst(s, f.receivedNs, Some(UnsafeTelemetry), ok);
  }

  lemma StopDropsFirst(s: Sink, now: nat, reason: Option<Reason>, ok: bool)
    ensures StopAndZero(s, now, reason, ok).sink.firstNonzero.None?
  {}

  lemma AwaitedMotionOwesNoZero(h: Sink)
    requires Inv(h) && Operational(h) && h.firstNonzero.Some?
    ensures h.pendingAck.None?
  {}

  lemma RestKeepsFirst(cfg: Config, s: Sink, f: Telemetry, ok: bool)
    requires Inv(s) && Operational(s) && s.telemetry == Some(f)
    ensures FirstUnmatched(FirstNonzeroPhase(s, f).sink)
    ensures FirstUnmatched(SafetyPhase(cfg, FirstNonzeroPhase(s, f).sink, f, ok).sink)
  {
    MatchedFirstIsDropped(s, f);
    SafetyFirst(cfg, FirstNonzeroPhase(s, f).sink, f, ok);
  }

  /** While the sink waits for the echo of a motion no acknowledgement can fail. */
  lemma FailedAckAwaitsNothing(cfg: Config, h: Sink, f: Telemetry, ok: bool)
    requires Inv(h) && Operational(h) && AcknowledgePhase(cfg, h, f, ok).outcome.Failed?
    ensures AcknowledgePhase(cfg, h, f, ok).sink.firstNonzero.None?
  {
    if h.firstNonzero.Some? { AwaitedMotionOwesNoZero(h); }
    AckKeepsSamples(cfg, h, f, ok);
  }

  lemma ProcessFirst(cfg: Config, h: Sink, f: Telemetry, ok: bool)
    requires Inv(h) && Operational(h) && Observing(h, f)
    ensures FirstUnmatched(ProcessRow(cfg, h, f, ok).sink)
  {
    var ack := AcknowledgePhase(cfg, h, f, ok);
    if ack.outcome.Failed? {
      FailedAckAwaitsNothing(cfg, h, f, ok);
    } else {
      AckKeeps(cfg, h, f, ok);
      AckStaysOperational(cfg, h, f, ok);
      RestKeepsFirst(cfg, ack.sink, f, ok);
    }
  }

  lemma RowKeepsFirst(cfg: Config, s: Sink, f: Telemetry, ok: bool)
    requires Inv(s) && s.synchronized && FirstUnmatched(s)
    ensures FirstUnmatched(ObserveLocked(cfg, s, f, ok).sink)
  {
    if Operational(s) && !Regresses(s, f) {
      RowKeeps(s, f);
      ProcessFirst(cfg, Current(s, f), f, ok);
    }
  }

  lemma CallKeepsFirst(cfg: Config, s: Sink, call: Call, ok: bool)
    requires Inv(s) && FirstUnmatched(s) && Causal(s, call)
    ensures FirstUnmatched(Perform(cfg, s, call, ok).sink)
  {
    if call.CallInitialize? {
    } else if call.CallObserve? {
      if s.synchronized { RowKeepsFirst(cfg, s, call.frame, ok); }
    } else if call.CallInvalidate? {
      if s.synchronized { RowKeepsFirst(cfg, s, InvalidRow(s.telemetry.value, call.now, call.alive), ok); }
    } else {
      OtherCallsFirst(cfg, s, call, ok);
      if s.telemetry.Some? { FirstMoveKeeps(s, Perform(cfg, s, call, ok).sink); }
    }
  }

  lemma {:induction false} CausalRunLeavesFirst(cfg: Config, calls: seq<TimedCall>)
    requires CausalRun(cfg, calls)
    ensures FirstUnmatched(Run(cfg, calls))
  {
    if calls != [] {
      var n := |calls| - 1;
      CausalFront(cfg, calls);
      CausalRunLeavesFirst(cfg, calls[..n]);
      EveryRunKeepsInvariant(cfg, calls[..n]);
      CallKeepsFirst(cfg, Run(cfg, calls[..n]), calls[n].call, calls[n].ok);
    }
  }

  lemma CausalFront(cfg: Config, calls: seq<TimedCall>)
    requires CausalRun(cfg, calls) && calls != []
    ensures CausalRun(cfg, calls[..|calls| - 1])
    ensures Causal(Run(cfg, calls[..|calls| - 1]), calls[|calls| - 1].call)
  {
    var front := calls[..|calls| - 1];
    assert forall k | 0 <= k < |front| :: front[..k] == calls[..k] && front[k] == calls[k];
  }

  lemma UnmatchedRowDrawsNothing(cfg: Config, h: Sink, f: Telemetry, ok: bool)
    requires Inv(h) && Operational(h) && (h.firstNonzero.Some? ==> !FirstNonzeroMatches(h.firstNonzero.value, f))
    ensures ProcessRow(cfg, h, f, ok).sink.samples == h.samples
  {
    ProcessSamples(cfg, h, f, ok);
    AckKeepsSamples(cfg, h, f, ok);
  }

  /** A row the sink makes up draws no sample. */
  lemma MadeUpRowDrawsNothing(cfg: Config, s: Sink, now: nat, alive: bool, ok: bool)
    requires Inv(s) && FirstUnmatched(s)
    ensures InvalidateTelemetry(cfg, s, now, alive, ok).sink.samples == s.samples
  {
    if Operational(s) && !Regresses(s, InvalidRow(s.telemetry.value, now, alive)) {
      var row := InvalidRow(s.telemetry.value, now, alive);
      RowKeeps(s, row);
      UnmatchedRowDrawsNothing(cfg, Current(s, row), row, ok);
    }
  }

  lemma CausalSampleGrows(s: Sink, t: Sink, f: Telemetry)
    requires SamplesGrow(s, t, Some(f)) && EchoCausal(s, f)
    requires forall i | 0 <= i < |s.samples| :: WellMeasured(s.samples[i])
    ensures forall i | 0 <= i < |t.samples| :: WellMeasured(t.samples[i])
  {}

  lemma IgnoredRowDrawsNothing(cfg: Config, s: Sink, f: Telemetry, ok: bool)
    requires Regresses(s, f)
    ensures ObserveTelemetry(cfg, s, f, ok).sink.samples == s.samples
  {}

  lemma CausalCallMeasuresUp(cfg: Config, s: Sink, call: Call, ok: bool)
    requires Inv(s) && FirstUnmatched(s) && Causal(s, call)
    requires forall i | 0 <= i < |s.samples| :: WellMeasured(s.samples[i])
    ensures var t := Perform(cfg, s, call, ok).sink; forall i | 0 <= i < |t.samples| :: WellMeasured(t.samples[i])
  {
    if call.CallObserve? {
      if Regresses(s, call.frame) {
        IgnoredRowDrawsNothing(cfg, s, call.frame, ok);
      } else {
        CallsGrowSamples(cfg, s, call, ok);
        CausalSampleGrows(s, Perform(cfg, s, call, ok).sink, call.frame);
      }
    } else if call.CallInvalidate? {
      MadeUpRowDrawsNothing(cfg, s, call.now, call.alive, ok);
    } else {
      OtherCallsKeepSamples(cfg, s, call, ok);
    }
  }

  /** In a causal run every payload can be computed, no duration is negative, and
      the three parts sum to the total. */
  lemma {:induction false} CausalSamplesMeasureUp(cfg: Config, calls: seq<TimedCall>)
    requires CausalRun(cfg, calls)
    ensures forall i | 0 <= i < |Run(cfg, calls).samples| :: WellMeasured(Run(cfg, calls).samples[i])
  {
    if calls != [] {
      var n := |calls| - 1;
      CausalFront(cfg, calls);
      CausalSamplesMeasureUp(cfg, calls[..n]);
      EveryRunKeepsInvariant(cfg, calls[..n]);
      CausalRunLeavesFirst(cfg, calls[..n]);
      CausalCallMeasuresUp(cfg, Run(cfg, calls[..n]), calls[n].call, calls[n].ok);
    }
  }

  predicate WellMeasured(x: HandoffSample) {
    match AsPayload(x)
    case None => false
    case Some(p) =>
      && p.zeroClaimMs >= 0.0 && p.readyWaitMs >= 0.0 && p.firstAckMs >= 0.0
      && p.zeroClaimMs + p.readyWaitMs + p.firstAckMs == p.latencyMs
  }

  /** Without the causality assumption the payload is computed, or raises,
      exactly according to whether the first motion's echo came after it. */
  lemma PayloadIsComplete(x: HandoffSample)
    requires SampleOk(x)
    ensures AsPayload(x).Some? <==> x.firstWriteNs <= x.firstAckNs
    ensures AsPayload(x).Some? ==> WellMeasured(x)
  {
    if x.firstWriteNs <= x.firstAckNs {
      var claim, wait := x.targetAckNs - x.terminalAckNs, x.firstWriteNs - x.targetAckNs;
      var ack := x.firstAckNs - x.firstWriteNs;
      assert x.firstAckNs - x.terminalAckNs == claim + wait + ack;
      assert (claim + wait + ack) as real / 1000000.0 ==
             claim as real / 1000000.0 + wait as real / 1000000.0 + ack as real / 1000000.0;
    }
  }
}
