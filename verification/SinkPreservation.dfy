/** Every call of the command sink keeps the invariant. */
module SinkPreservation {
  import opened Wrappers
  import opened ResidentMotion
  import opened ResidentCommands
  import opened ResidentSink
  import opened HandoffInvariant

  // ---------- one lemma for each thing a call can do ----------

  /** t is s after commands and rows none of which completes a claim; a nonzero
      command comes from the policy that stays active. */
  predicate QuietStep(s: Sink, t: Sink) {
    && |s.log| <= |t.log| && s.log == t.log[..|s.log|]
    && |s.seen| <= |t.seen| && s.seen == t.seen[..|s.seen|]
    && (forall i | |s.log| <= i < |t.log| && Nonzero(t.log[i]) ::
          && t.authority.phase.Active? && t.authority.active.Some? && t.log[i].mode == t.authority.active.value.mode
          && t.log[i].generation == t.authority.generation)
    && (s.authority.active.Some? ==> t.authority.active == s.authority.active)
    && t.authority.active.Some? == s.authority.active.Some?
    && (t.authority.phase.TargetZeroPending? ==>
          t.authority.active.None? && (|s.log| < |t.log| || s.authority.phase.TargetZeroPending?))
    && (t.authority.phase.Active? ==>
          s.authority.phase.Active? && t.authority.generation == s.authority.generation)
  }

  lemma QuietStepKeepsProgress(s: Sink, t: Sink)
    requires HandoffProgress(s) && QuietStep(s, t)
    ensures HandoffProgress(t)
  {
    var more, rows := t.log[|s.log|..], t.seen[|s.seen|..];
    assert t.log == s.log + more && t.seen == s.seen + rows;
    forall a | 0 <= a < |t.log| && Nonzero(t.log[a]) ensures ProgressFrom(t, a) {
      if a < |s.log| {
        assert t.log[a] == s.log[a] && ProgressFrom(s, a);
        if Released(s.log, s.seen, a, |s.log|) {
          ReleasedGrows(s.log, s.seen, more, rows, a, |s.log|, |t.log|);
          if |s.log| < |t.log| {
            ReleasedGrows(s.log, s.seen, more, rows, a, |s.log|, |t.log| - 1);
          }
        }
        if s.authority.phase.TargetZeroPending? {
          ReleasedGrows(s.log, s.seen, more, rows, a, |s.log| - 1, |t.log| - 1);
        }
        if t.authority.phase.Active? && s.authority.active.Some? && s.log[a].generation != s.authority.generation {
          ClaimedGrows(s.log, s.seen, more, rows, a, s.authority.active.value.mode, s.authority.generation,
                       |s.log|, |t.log|);
        }
      }
    }
  }

  lemma RowKeepsEvidence(s: Sink, t: Sink, f: Telemetry)
    requires EvidenceOk(s) && s.telemetry.Some?
    requires t == Recorded(s, f) || (t == Recorded(s, f).(telemetry := Some(f)) && !Regresses(s, f))
    ensures EvidenceOk(t)
  {}

  lemma RowKeeps(s: Sink, f: Telemetry)
    requires Inv(s) && s.synchronized
    ensures Inv(Recorded(s, f))
    ensures !Regresses(s, f) ==> Inv(Recorded(s, f).(telemetry := Some(f)))
  {
    RowKeepsIn(s, Recorded(s, f), f);
    if !Regresses(s, f) {
      RowKeepsIn(s, Recorded(s, f).(telemetry := Some(f)), f);
    }
  }

  lemma RowKeepsIn(s: Sink, t: Sink, f: Telemetry)
    requires Inv(s) && s.synchronized
    requires t == Recorded(s, f) || (t == Recorded(s, f).(telemetry := Some(f)) && !Regresses(s, f))
    ensures Inv(t)
  {
    RowsKeepHistory(s, t, [Seen(f, |s.log|)]);
    if Operational(s) {
      QuietStepKeepsProgress(s, t);
      RowKeepsEvidence(s, t, f);
    }
  }

  // ---------- writing ----------

  lemma FaultKeeps(s: Sink, next: Sequence)
    requires HistoryOk(s) && WellShaped(s.authority) && s.synchronized && s.telemetry.Some?
    ensures Inv(Faulted(s, next))
  {}

  /** A zero command never disturbs the history statements. */
  lemma ZeroKeepsHistory(s: Sink, t: Sink, w: Write)
    requires HistoryOk(s) && !Nonzero(w) && w.generation <= t.authority.generation && w.commandSeq == Expected(s)
    requires t.log == s.log + [w] && t.seen == s.seen && t.start == s.start && t.authority == s.authority
    requires s.log != [] && Last(s).mode != w.mode ==> !Nonzero(Last(s))
    ensures HistoryOk(t)
  {
    CommandKeepsHistory(s, t, w);
  }

  predicate AwaitsZero(a: AuthorityState, now: nat) {
    && WellShaped(a) && (a.phase.TerminalZeroPending? || a.phase.TargetZeroPending?) && a.requestedNs.value <= now
  }

  /** t is h after the zero its authority waits for was written. */
  predicate ZeroIssued(h: Sink, t: Sink, w: Write, now: nat) {
    && t == Appended(h, w).(pendingAck := t.pendingAck)
    && PendingZeroOf(h.authority).ZeroPending?
    && var z := PendingZeroOf(h.authority).zero;
       && t.pendingAck == Some(PendingAck(z.generation, z.mode, z.purpose, w.commandSeq))
       && w.action == ZERO_ACTION && w.mode == z.mode && w.generation == z.generation
       && w.commandSeq == h.nextSequence && w.at == now
  }

  lemma IssueEffect(h: Sink, now: nat, reason: Option<Reason>, ok: bool) returns (w: Write)
    requires AwaitsZero(h.authority, now)
    ensures !ok ==> IssuePendingZero(h, now, reason, ok).sink == Faulted(h, Successor(h.nextSequence))
    ensures !ok ==> IssuePendingZero(h, now, reason, ok).outcome == Failed(SerialFault)
    ensures ok ==> ZeroIssued(h, IssuePendingZero(h, now, reason, ok).sink, w, now)
    ensures ok ==> IssuePendingZero(h, now, reason, ok).outcome.Result?
  {
    var z := PendingZeroOf(h.authority).zero;
    var why := if reason.Some? then reason.value else PurposeReason(z.purpose);
    w := Command(h, z.mode, ZERO_ACTION, now, why, false);
    assert Encodable(z.mode, ZERO_ACTION);
  }

  lemma IssueKeepsOwner(h: Sink, t: Sink, w: Write, now: nat)
    requires ZeroIssued(h, t, w, now) && AwaitsZero(h.authority, now) && h.lease.None?
    requires forall i | 0 <= i < |h.log| && Nonzero(h.log[i]) :: h.log[i].generation != h.authority.generation
    ensures SinkAgreesWithAuthority(t) && LeaseFollowsMotion(t) && CommandsBelongToOwner(t)
  {}

  lemma NewGeneration(s: Sink, h: Sink)
    requires HistoryOk(s) && h.log == s.log && h.authority.generation == s.authority.generation + 1
    ensures forall i | 0 <= i < |h.log| && Nonzero(h.log[i]) :: h.log[i].generation != h.authority.generation
  {}

  // ---------- stop and handoff ----------

  /** A new generation was opened, and everything tied to the old one dropped. */
  predicate NewRequest(s: Sink, h: Sink, now: nat) {
    && h == s.(authority := h.authority, lease := None, latched := h.latched, pendingAck := h.pendingAck,
               measurement := None, firstNonzero := None)
    && WellShaped(h.authority) && h.authority.generation == s.authority.generation + 1
    && h.authority.active == s.authority.active
    && (h.authority.phase.Idle? || AwaitsZero(h.authority, now))
  }

  lemma RequestEvidence(s: Sink, t: Sink)
    requires EvidenceOk(s) && t.samples == s.samples && t.authority.generation == s.authority.generation + 1
    requires t.measurement.None? && t.firstNonzero.None?
    ensures EvidenceOk(t)
  {}

  lemma IdleRequestKeeps(s: Sink, h: Sink, now: nat)
    requires Inv(s) && Operational(s) && NewRequest(s, h, now) && h.authority.phase.Idle? && h.pendingAck.None?
    ensures Inv(h)
  {}

  lemma RequestKeeps(s: Sink, h: Sink, t: Sink, w: Write, now: nat)
    requires Inv(s) && Operational(s) && NewRequest(s, h, now)
    requires AwaitsZero(h.authority, now) && ZeroIssued(h, t, w, now)
    ensures Inv(t)
  {
    RowsKeepHistory(s, h, []);
    ZeroKeepsHistory(h, t, w);
    NewGeneration(s, h);
    IssueKeepsOwner(h, t, w, now);
    QuietStepKeepsProgress(s, t);
    RequestEvidence(s, t);
  }

  lemma RequestedKeeps(s: Sink, h: Sink, now: nat, reason: Option<Reason>, ok: bool)
    requires Inv(s) && Operational(s) && NewRequest(s, h, now)
    ensures Inv(IssuePendingZero(h, now, reason, ok).sink)
    ensures ok ==> !IssuePendingZero(h, now, reason, ok).outcome.Failed?
    ensures !ok ==> IssuePendingZero(h, now, reason, ok).outcome in {Done, Failed(SerialFault)}
    ensures IssuePendingZero(h, now, reason, ok).outcome.Done? <==> h.authority.phase.Idle?
    ensures ok ==> !IssuePendingZero(h, now, reason, ok).sink.faulted
  {
    RowsKeepHistory(s, h, []);
    if h.authority.phase.Idle? {
      IdleRequestKeeps(s, h.(pendingAck := None), now);
    } else {
      var w := IssueEffect(h, now, reason, ok);
      if ok {
        RequestKeeps(s, h, IssuePendingZero(h, now, reason, ok).sink, w, now);
      } else {
        FaultKeeps(h, Successor(h.nextSequence));
      }
    }
  }

  lemma StopKeeps(s: Sink, now: nat, reason: Option<Reason>, ok: bool)
    requires Inv(s) && Operational(s)
    ensures Inv(StopAndZero(s, now, reason, ok).sink)
    ensures ok ==> !StopAndZero(s, now, reason, ok).outcome.Failed?
    ensures !ok ==> StopAndZero(s, now, reason, ok).outcome in {Done, Failed(SerialFault)}
    ensures StopAndZero(s, now, reason, ok).outcome.Done? <==> s.authority.active.None?
    ensures ok ==> !StopAndZero(s, now, reason, ok).sink.faulted
  {
    RequestedKeeps(s, Unmeasured(s).(authority := StopRequested(s.authority, now), lease := None, latched := true,
                                     pendingAck := None), now, reason, ok);
  }

  lemma HandoffKeeps(s: Sink, binding: PolicyBinding, now: nat, ok: bool)
    requires Inv(s) && Operational(s)
    ensures Inv(RequestHandoff(s, binding, now, ok).sink)
    ensures RequestHandoff(s, binding, now, ok).outcome ==
            if ok then Generation(s.authority.generation + 1) else Failed(SerialFault)
    ensures ok ==> !RequestHandoff(s, binding, now, ok).sink.faulted
  {
    RequestedKeeps(s, Unmeasured(s).(authority := HandoffRequested(s.authority, binding, now), lease := None,
                                     latched := false), now, None, ok);
  }

  // ---------- telemetry ----------

  /** The row just recorded is the sink's current one. */
  predicate Observing(s: Sink, f: Telemetry) {
    s.telemetry == Some(f) && s.seen != [] && s.seen[|s.seen| - 1] == Seen(f, |s.log|)
  }

  /** What an acknowledged zero proves about every earlier motion. */
  lemma AckProves(cfg: Config, s: Sink, f: Telemetry, a: nat)
    requires Inv(s) && Operational(s) && Observing(s, f)
    requires s.pendingAck.Some? && AckMatches(cfg, s, s.pendingAck.value, f)
    requires a < |s.log| && Nonzero(s.log[a])
    ensures s.authority.phase.TerminalZeroPending? ==> Released(s.log, s.seen, a, |s.log|)
    ensures s.authority.phase.TargetZeroPending? && s.authority.target.Some? ==>
              Claimed(s.log, s.seen, a, s.authority.target.value.mode, s.authority.generation, |s.log|)
  {
    var k := |s.log| - 1;
    var p := s.pendingAck.value;
    assert ProgressFrom(s, a);
    assert EchoesZero(s.seen[|s.seen| - 1].frame, s.log[k]);
    assert ZeroAcked(s.log, s.seen, k, |s.log|, p.mode, p.purpose.TargetClaim?);
    if s.authority.phase.TerminalZeroPending? && s.log[a].mode == s.authority.active.value.mode {
      assert ZeroAcked(s.log, s.seen, k, |s.log|, s.log[a].mode, false);
    }
  }

  lemma AckKeeps(cfg: Config, s: Sink, f: Telemetry, ok: bool)
    requires Inv(s) && Operational(s) && Observing(s, f)
    ensures Inv(AcknowledgePhase(cfg, s, f, ok).sink)
    ensures AcknowledgePhase(cfg, s, f, ok).outcome.Failed? ==>
              AcknowledgePhase(cfg, s, f, ok).outcome in {Failed(AckPredatesRequest), Failed(SerialFault)}
    ensures AcknowledgePhase(cfg, s, f, ok).outcome == Failed(SerialFault) ==> !ok
    ensures ok ==> !AcknowledgePhase(cfg, s, f, ok).sink.faulted
    ensures AcknowledgePhase(cfg, s, f, ok).outcome == Failed(AckPredatesRequest) ==>
              f.rxSeq == Last(s).commandSeq && f.receivedNs < Last(s).at
    ensures !AcknowledgePhase(cfg, s, f, ok).outcome.Failed? ==> AcknowledgePhase(cfg, s, f, ok).sink.telemetry == Some(f)
  {
    if s.pendingAck.Some? && AckMatches(cfg, s, s.pendingAck.value, f) {
      var p := s.pendingAck.value;
      var ack := ZeroAcknowledged(s.authority, p.generation, p.mode, ZERO_ACTION, f.receivedNs);
      if ack.Ok? {
        var h := s.(authority := ack.value, measurement := MeasurementAfterAck(s, p, f), pendingAck := None);
        if h.authority.phase.TargetZeroPending? {
          NextZeroKeeps(cfg, s, h, f, ok);
        } else {
          AckCompletes(cfg, s, h, f);
        }
      } else {
        AckFailsOnlyEarly(cfg, s, f);
      }
    }
  }

  /** A matching row is turned away only if it was received before the request. */
  lemma AckFailsOnlyEarly(cfg: Config, s: Sink, f: Telemetry)
    requires Inv(s) && Operational(s) && s.pendingAck.Some? && AckMatches(cfg, s, s.pendingAck.value, f)
    requires var p := s.pendingAck.value;
      !ZeroAcknowledged(s.authority, p.generation, p.mode, ZERO_ACTION, f.receivedNs).Ok?
    ensures var p := s.pendingAck.value;
      ZeroAcknowledged(s.authority, p.generation, p.mode, ZERO_ACTION, f.receivedNs) == Raised(AckPredatesRequest)
    ensures s.log != [] && f.rxSeq == Last(s).commandSeq && f.receivedNs < Last(s).at
  {}

  /** The terminal zero was acknowledged: the target's own zero goes out. */
  lemma NextZeroKeeps(cfg: Config, s: Sink, h: Sink, f: Telemetry, ok: bool)
    requires Inv(s) && Operational(s) && Observing(s, f) && Acknowledged(cfg, s, h, f)
    requires h.authority.phase.TargetZeroPending?
    ensures var step := IssuePendingZero(h, f.receivedNs, None, ok);
      && Inv(step.sink) && step.sink.faulted == !ok && step.outcome.Failed? == !ok
      && (!ok ==> step.outcome == Failed(SerialFault)) && (ok ==> step.sink.telemetry == Some(f))
  {
    AckKeepsRest(cfg, s, h, f);
    var w := IssueEffect(h, f.receivedNs, None, ok);
    if ok {
      TargetZeroKeeps(cfg, s, h, IssuePendingZero(h, f.receivedNs, None, ok).sink, w, f);
    } else {
      FaultKeeps(h, Successor(h.nextSequence));
    }
  }

  predicate Acknowledged(cfg: Config, s: Sink, h: Sink, f: Telemetry) {
    && s.pendingAck.Some? && AckMatches(cfg, s, s.pendingAck.value, f)
    && var p := s.pendingAck.value;
       && ZeroAcknowledged(s.authority, p.generation, p.mode, ZERO_ACTION, f.receivedNs) == Ok(h.authority)
       && h == s.(authority := h.authority, measurement := MeasurementAfterAck(s, p, f), pendingAck := None)
  }

  lemma AckKeepsRest(cfg: Config, s: Sink, h: Sink, f: Telemetry)
    requires Inv(s) && Operational(s) && Observing(s, f) && Acknowledged(cfg, s, h, f)
    ensures HistoryOk(h) && WellShaped(h.authority) && EvidenceOk(h)
    ensures h.authority.phase.TargetZeroPending? ==> AwaitsZero(h.authority, f.receivedNs)
    ensures h.lease.None? && forall i | 0 <= i < |h.log| && Nonzero(h.log[i]) :: h.log[i].generation != h.authority.generation
  {}

  /** The acknowledgement ended the handoff: idle, or the target is active. */
  lemma AckCompletes(cfg: Config, s: Sink, h: Sink, f: Telemetry)
    requires Inv(s) && Operational(s) && Observing(s, f) && Acknowledged(cfg, s, h, f)
    requires !h.authority.phase.TargetZeroPending?
    ensures Inv(h)
  {
    AckKeepsRest(cfg, s, h, f);
    assert HandoffProgress(h) by {
      forall a | 0 <= a < |h.log| && Nonzero(h.log[a]) ensures ProgressFrom(h, a) {
        AckCompletesFor(cfg, s, h, f, a);
      }
    }
    assert CommandsBelongToOwner(h);
  }

  lemma AckCompletesFor(cfg: Config, s: Sink, h: Sink, f: Telemetry, a: nat)
    requires Inv(s) && Operational(s) && Observing(s, f) && Acknowledged(cfg, s, h, f)
    requires !h.authority.phase.TargetZeroPending? && a < |s.log| && Nonzero(s.log[a])
    ensures ProgressFrom(h, a)
  {
    AckProves(cfg, s, f, a);
    if s.authority.phase.TargetZeroPending? {
      StaysReleased(s, a);
    }
  }

  lemma StaysReleased(s: Sink, a: nat)
    requires Inv(s) && Operational(s) && s.authority.phase.TargetZeroPending? && a < |s.log| && Nonzero(s.log[a])
    ensures Released(s.log, s.seen, a, |s.log|)
  {
    assert ProgressFrom(s, a);
    ReleasedGrows(s.log, s.seen, [], [], a, |s.log| - 1, |s.log|);
    assert s.log + [] == s.log && s.seen + [] == s.seen;
  }

  lemma TargetZeroKeeps(cfg: Config, s: Sink, h: Sink, t: Sink, w: Write, f: Telemetry)
    requires Inv(s) && Operational(s) && Observing(s, f) && Acknowledged(cfg, s, h, f)
    requires h.authority.phase.TargetZeroPending? && ZeroIssued(h, t, w, f.receivedNs)
    ensures Inv(t)
  {
    AckKeepsRest(cfg, s, h, f);
    ZeroKeepsHistory(h, t, w);
    IssueKeepsOwner(h, t, w, f.receivedNs);
    forall a | 0 <= a < |t.log| && Nonzero(t.log[a]) ensures ProgressFrom(t, a) {
      AckProves(cfg, s, f, a);
      ReleasedStays(s, t, w, a);
    }
  }

  /** A motion released before the target's zero went out stays released after it. */
  lemma ReleasedStays(s: Sink, t: Sink, w: Write, a: nat)
    requires t.log == s.log + [w] && t.seen == s.seen && Released(s.log, s.seen, a, |s.log|)
    requires t.authority.phase.TargetZeroPending?
    ensures a < |t.log| && ProgressFrom(t, a)
  {
    ReleasedGrows(s.log, s.seen, [w], [], a, |s.log|, |s.log|);
    ReleasedGrows(s.log, s.seen, [w], [], a, |s.log|, |t.log|);
    assert s.seen + [] == s.seen;
  }

  lemma FirstNonzeroKeeps(s: Sink, f: Telemetry)
    requires Inv(s) && Operational(s) && s.telemetry == Some(f)
    ensures Inv(FirstNonzeroPhase(s, f).sink)
    ensures FirstNonzeroPhase(s, f).outcome == Done
    ensures Operational(FirstNonzeroPhase(s, f).sink) && FirstNonzeroPhase(s, f).sink.telemetry == Some(f)
  {
    if s.firstNonzero.Some? && FirstNonzeroMatches(s.firstNonzero.value, f) {
      var t := FirstNonzeroPhase(s, f).sink;
      RowsKeepHistory(s, t, []);
      QuietStepKeepsProgress(s, t);
      SampleKeepsEvidence(s, t, f);
    }
  }

  lemma SampleKeepsEvidence(s: Sink, t: Sink, f: Telemetry)
    requires EvidenceOk(s) && s.telemetry == Some(f) && s.firstNonzero.Some? && s.measurement.Some?
    requires t.measurement.None? && t.firstNonzero.None? && t.authority.generation == s.authority.generation
    requires t.authority.phase.Active? && |t.samples| == |s.samples| + 1 && t.samples[..|s.samples|] == s.samples
    requires var m := s.measurement.value; var p := s.firstNonzero.value; var x := t.samples[|s.samples|];
             x.generation == m.generation && x.terminalAckNs == m.terminalAckNs &&
             m.targetAckNs.Some? && x.targetAckNs == m.targetAckNs.value &&
             x.firstWriteNs == p.writeNs && x.firstAckNs == f.receivedNs
    ensures EvidenceOk(t)
  {}

  lemma SafetyKeeps(cfg: Config, s: Sink, f: Telemetry, ok: bool)
    requires Inv(s) && Operational(s) && s.telemetry == Some(f)
    ensures Inv(SafetyPhase(cfg, s, f, ok).sink)
    ensures SafetyPhase(cfg, s, f, ok).outcome.Failed? ==> !ok && SafetyPhase(cfg, s, f, ok).outcome == Failed(SerialFault)
    ensures ok ==> !SafetyPhase(cfg, s, f, ok).sink.faulted
  {
    StopKeeps(s, f.receivedNs, Some(UnsafeTelemetry), ok);
    UnlatchKeeps(s);
  }

  lemma UnlatchKeeps(s: Sink)
    requires Inv(s) && Operational(s)
    ensures Inv(s.(latched := false))
  {}

  lemma ProcessKeeps(cfg: Config, s: Sink, f: Telemetry, ok: bool)
    requires Inv(s) && Operational(s) && Observing(s, f)
    ensures Inv(ProcessRow(cfg, s, f, ok).sink)
    ensures ProcessRow(cfg, s, f, ok).outcome in {Done, Failed(AckPredatesRequest), Failed(SerialFault)}
    ensures ProcessRow(cfg, s, f, ok).outcome == Failed(SerialFault) ==> !ok
    ensures ok ==> !ProcessRow(cfg, s, f, ok).sink.faulted
    ensures ProcessRow(cfg, s, f, ok).outcome == Failed(AckPredatesRequest) ==>
              s.log != [] && f.rxSeq == Last(s).commandSeq && f.receivedNs < Last(s).at
  {
    AckKeeps(cfg, s, f, ok);
    var ack := AcknowledgePhase(cfg, s, f, ok);
    if !ack.outcome.Failed? {
      AckStaysOperational(cfg, s, f, ok);
      FirstNonzeroKeeps(ack.sink, f);
      SafetyKeeps(cfg, FirstNonzeroPhase(ack.sink, f).sink, f, ok);
    }
  }

  lemma ObserveKeeps(cfg: Config, s: Sink, f: Telemetry, ok: bool)
    requires Inv(s) && s.synchronized
    ensures Inv(ObserveLocked(cfg, s, f, ok).sink)
    ensures ObserveLocked(cfg, s, f, ok).outcome in {Done, Failed(AckPredatesRequest), Failed(SerialFault)}
    ensures ObserveLocked(cfg, s, f, ok).outcome == Failed(SerialFault) ==> !ok
    ensures ok && !s.faulted ==> !ObserveLocked(cfg, s, f, ok).sink.faulted
    ensures ObserveLocked(cfg, s, f, ok).outcome == Failed(AckPredatesRequest) ==>
              s.log != [] && f.rxSeq == Last(s).commandSeq && f.receivedNs < Last(s).at
  {
    RowKeeps(s, f);
    if !Regresses(s, f) && Operational(s) {
      ProcessKeeps(cfg, Recorded(s, f).(telemetry := Some(f)), f, ok);
    }
  }

  lemma AckStaysOperational(cfg: Config, s: Sink, f: Telemetry, ok: bool)
    requires Operational(s) && !AcknowledgePhase(cfg, s, f, ok).outcome.Failed?
    ensures Operational(AcknowledgePhase(cfg, s, f, ok).sink)
  {}

  // ---------- commands of the active policy ----------

  /** What every command written for the active policy keeps, before the
      lease and the evidence are brought up to date. */
  lemma ActiveCommandKeeps(s: Sink, t: Sink, w: Write)
    requires Inv(s) && Operational(s) && s.authority.phase.Active?
    requires t.authority == s.authority && t.log == s.log + [w] && t.seen == s.seen && t.start == s.start
    requires w.mode == s.authority.active.value.mode && w.source == Some(s.authority.active.value.source)
    requires w.generation == s.authority.generation && w.commandSeq == Expected(s) && (Nonzero(w) ==> w.accepted)
    requires t.pendingAck.None?
    ensures HistoryOk(t) && HandoffProgress(t) && CommandsBelongToOwner(t) && SinkAgreesWithAuthority(t)
  {
    if Nonzero(w) {
      forall a | 0 <= a < |s.log| && Nonzero(s.log[a])
        ensures if s.log[a].generation == w.generation then s.log[a].source == w.source && s.log[a].mode == w.mode
                else Claimed(s.log, s.seen, a, w.mode, w.generation, |s.log|)
      {
        assert ProgressFrom(s, a);
      }
    }
    CommandKeepsHistory(s, t, w);
    QuietStepKeepsProgress(s, t);
    forall i | 0 <= i < |t.log| && Nonzero(t.log[i]) && t.log[i].generation == t.authority.generation
      ensures WrittenBy(t.log[i], t.authority.active)
    {
      assert i < |s.log| ==> t.log[i] == s.log[i];
    }
  }

  /** Without a pending acknowledgement, only an active policy gets past the
      passive rejections. */
  lemma PastTheGates(cfg: Config, s: Sink, c: MotionCandidate, now: nat)
    requires Inv(s) && Operational(s) && s.pendingAck.None?
    requires Routed(cfg, s, c, now).mode.Some? && !IsPassiveRejection(Routed(cfg, s, c, now).reason)
    ensures s.authority.phase.Active?
    ensures var d := Routed(cfg, s, c, now); var b := s.authority.active.value;
      && d.mode == Some(b.mode)
      && (d.accepted ==> c.source == b.source && c.mode == b.mode && c.generation == s.authority.generation &&
                         d.effectiveAction == c.action && d.reason == Accepted &&
                         Encodable(b.mode, d.effectiveAction) && SafetyPermits(cfg, s, now, b.mode))
      && (!d.accepted ==> d.effectiveAction == ZERO_ACTION && !d.reason.TargetModeClaim?)
  {}

  lemma CandidateKeeps(cfg: Config, s: Sink, c: MotionCandidate, now: nat)
    requires Inv(s) && Operational(s) && s.pendingAck.None?
    requires Routed(cfg, s, c, now).mode.Some? && !IsPassiveRejection(Routed(cfg, s, c, now).reason)
    requires Routed(cfg, s, c, now).accepted ==> s.firstNonzero.None?
    ensures var d := Routed(cfg, s, c, now);
            var w := Command(s, d.mode.value, d.effectiveAction, now, d.reason, d.accepted);
            Inv(AfterCandidateWrite(Appended(s, w), c, d, s.nextSequence, now))
  {
    var d := Routed(cfg, s, c, now);
    var w := Command(s, d.mode.value, d.effectiveAction, now, d.reason, d.accepted);
    var t := AfterCandidateWrite(Appended(s, w), c, d, s.nextSequence, now);
    PastTheGates(cfg, s, c, now);
    ActiveCommandKeeps(s, t, w);
    CandidateEvidence(cfg, s, t, w, now);
  }

  lemma CandidateEvidence(cfg: Config, s: Sink, t: Sink, w: Write, now: nat)
    requires EvidenceOk(s) && t.samples == s.samples && t.authority == s.authority && s.authority.phase.Active?
    requires t.telemetry == s.telemetry && t.log == s.log + [w] && w.at == now
    requires t.measurement == s.measurement || t.measurement.None?
    requires t.firstNonzero.Some? ==>
      && s.firstNonzero.None? && t.measurement.Some? && Nonzero(w) && w.generation == s.authority.generation
      && t.firstNonzero.value == FirstNonzero(w.generation, w.mode, w.commandSeq, w.action, now)
      && SafetyPermits(cfg, s, now, w.mode)
    ensures EvidenceOk(t)
  {}

  lemma WriteCandidateKeeps(cfg: Config, s: Sink, c: MotionCandidate, now: nat, ok: bool)
    requires Inv(s) && Operational(s) && s.pendingAck.None?
    requires Routed(cfg, s, c, now).mode.Some? && !IsPassiveRejection(Routed(cfg, s, c, now).reason)
    requires Routed(cfg, s, c, now).accepted ==> s.firstNonzero.None?
    ensures Inv(WriteCandidate(s, c, Routed(cfg, s, c, now), now, ok).sink)
    ensures WriteCandidate(s, c, Routed(cfg, s, c, now), now, ok).outcome.Failed? ==>
              !ok && WriteCandidate(s, c, Routed(cfg, s, c, now), now, ok).outcome == Failed(SerialFault)
    ensures ok ==> !WriteCandidate(s, c, Routed(cfg, s, c, now), now, ok).sink.faulted
  {
    PastTheGates(cfg, s, c, now);
    CandidateKeeps(cfg, s, c, now);
    FaultKeeps(s, Successor(s.nextSequence));
    assert Encodable(s.authority.active.value.mode, Routed(cfg, s, c, now).effectiveAction);
  }

  lemma SubmitKeeps(cfg: Config, s: Sink, c: MotionCandidate, now: nat, ok: bool)
    requires Inv(s)
    ensures Inv(SubmitCandidate(cfg, s, c, now, ok).sink)
    ensures SubmitCandidate(cfg, s, c, now, ok).outcome.Failed? ==>
              SubmitCandidate(cfg, s, c, now, ok).outcome == Failed(if s.synchronized then SerialFault else NotInitialized) &&
              (s.synchronized ==> !ok)
    ensures ok && !s.faulted ==> !SubmitCandidate(cfg, s, c, now, ok).sink.faulted
  {
    var d := Routed(cfg, s, c, now);
    if Operational(s) && s.pendingAck.None? && d.mode.Some? && !IsPassiveRejection(d.reason) {
      if d.reason.SafetyRejected? {
        PastTheGates(cfg, s, c, now);
        StopKeeps(s, now, Some(SafetyRejected), ok);
      } else if d.accepted ==> s.firstNonzero.None? {
        WriteCandidateKeeps(cfg, s, c, now, ok);
      }
    }
  }

  // ---------- tick, disarm, initialize ----------

  lemma KeepaliveKeeps(s: Sink, now: nat, ok: bool)
    requires Inv(s) && Operational(s) && s.authority.phase.Active? && s.lease.None? && s.firstNonzero.None?
    ensures var step := WriteCommand(s, s.authority.active.value.mode, ZERO_ACTION, now, IdleKeepalive, false, ok);
      Inv(step.sink) && step.sink.faulted == !ok && (step.outcome.Failed? ==> !ok && step.outcome == Failed(SerialFault))
  {
    var w := Command(s, s.authority.active.value.mode, ZERO_ACTION, now, IdleKeepalive, false);
    assert Encodable(w.mode, ZERO_ACTION);
    ActiveCommandKeeps(s, Appended(s, w), w);
    FaultKeeps(s, Successor(s.nextSequence));
  }

  lemma WatchdogKeeps(cfg: Config, s: Sink, now: nat, ok: bool)
    requires Inv(s) && Operational(s)
    ensures Inv(TickWatchdog(cfg, s, s.lease.Some?, now, ok).sink)
    ensures TickWatchdog(cfg, s, s.lease.Some?, now, ok).outcome.Failed? ==>
              !ok && TickWatchdog(cfg, s, s.lease.Some?, now, ok).outcome == Failed(SerialFault)
    ensures ok ==> !TickWatchdog(cfg, s, s.lease.Some?, now, ok).sink.faulted
  {
    if s.authority.active.Some? && s.pendingAck.None? && !s.latched {
      if SafetyPermits(cfg, s, now, s.authority.active.value.mode) {
        if s.lease.None? && s.firstNonzero.None? {
          KeepaliveKeeps(s, now, ok);
        }
      } else {
        StopKeeps(s, now, Some(StateWatchdog), ok);
      }
    }
  }

  /** resident_sink.py:597-602 never runs: a lease always names the owner. */
  lemma LeaseIsNeverForeign(s: Sink)
    requires Inv(s) && Operational(s) && s.lease.Some?
    ensures !LeaseIsForeign(s, s.lease.value)
  {}

  lemma TickKeeps(cfg: Config, s: Sink, now: nat, ok: bool)
    requires Inv(s)
    ensures Inv(Tick(cfg, s, now, ok).sink)
    ensures Tick(cfg, s, now, ok).outcome.Failed? ==>
              Tick(cfg, s, now, ok).outcome == Failed(if s.synchronized then SerialFault else NotInitialized) &&
              (s.synchronized ==> !ok)
    ensures ok && !s.faulted ==> !Tick(cfg, s, now, ok).sink.faulted
  {
    if Operational(s) {
      if s.lease.Some? {
        LeaseIsNeverForeign(s);
      }
      if s.lease.Some? && now > s.lease.value.validUntilNs {
        StopKeeps(s, now, Some(CandidateLeaseExpired), ok);
      } else {
        WatchdogKeeps(cfg, s, now, ok);
      }
    }
  }

  lemma DisarmKeeps(s: Sink, now: nat, ok: bool)
    requires Inv(s)
    ensures Inv(TerminallyDisarm(s, now, ok).sink)
    ensures TerminallyDisarm(s, now, ok).outcome.Failed? ==>
              TerminallyDisarm(s, now, ok).outcome == Failed(if s.synchronized then SerialFault else NotInitialized) &&
              (s.synchronized ==> !ok)
    ensures ok && !s.faulted ==> !TerminallyDisarm(s, now, ok).sink.faulted
  {
    if Operational(s) {
      var t := Unmeasured(s).(authority := StopRequested(s.authority, now), lease := None, pendingAck := None,
                              disarmed := true, latched := true);
      RowsKeepHistory(s, t, []);
      if DisarmMode(s).Some? {
        var w := Command(t, DisarmMode(s).value, ZERO_ACTION, now, TerminalDisarm, false);
        assert Encodable(w.mode, ZERO_ACTION);
        ZeroKeepsHistory(t, Appended(t, w), w);
        FaultKeeps(t, Successor(t.nextSequence));
      }
    }
  }

  lemma InitializeKeeps(s: Sink, f: Telemetry)
    requires Inv(s)
    ensures Inv(Initialize(s, f).sink)
  {}

  lemma StopCallKeeps(s: Sink, now: nat, ok: bool)
    requires Inv(s)
    ensures Inv(RequestStop(s, now, ok).sink)
    ensures ok && !s.faulted ==> !RequestStop(s, now, ok).sink.faulted
  {
    if Operational(s) { StopKeeps(s, now, None, ok); }
  }

  lemma SourceStopCallKeeps(s: Sink, binding: PolicyBinding, generation: nat, now: nat, ok: bool)
    requires Inv(s)
    ensures Inv(RequestSourceStop(s, binding, generation, now, ok).sink)
    ensures ok && !s.faulted ==> !RequestSourceStop(s, binding, generation, now, ok).sink.faulted
  {
    if Operational(s) { StopKeeps(s, now, None, ok); }
  }

  lemma HandoffCallKeeps(s: Sink, binding: PolicyBinding, now: nat, ok: bool)
    requires Inv(s)
    ensures Inv(RequestHandoff(s, binding, now, ok).sink)
    ensures ok && !s.faulted ==> !RequestHandoff(s, binding, now, ok).sink.faulted
  {
    if Operational(s) { HandoffKeeps(s, binding, now, ok); }
  }

  lemma ObserveCallKeeps(cfg: Config, s: Sink, f: Telemetry, ok: bool)
    requires Inv(s)
    ensures Inv(ObserveTelemetry(cfg, s, f, ok).sink)
    ensures ok && !s.faulted ==> !ObserveTelemetry(cfg, s, f, ok).sink.faulted
  {
    if s.synchronized { ObserveKeeps(cfg, s, f, ok); }
  }

  lemma InvalidateCallKeeps(cfg: Config, s: Sink, now: nat, alive: bool, ok: bool)
    requires Inv(s)
    ensures Inv(InvalidateTelemetry(cfg, s, now, alive, ok).sink)
    ensures ok && !s.faulted ==> !InvalidateTelemetry(cfg, s, now, alive, ok).sink.faulted
  {
    if s.synchronized { ObserveKeeps(cfg, s, InvalidRow(s.telemetry.value, now, alive), ok); }
  }

  predicate IsRequest(call: Call) { call.CallHandoff? || call.CallStop? || call.CallSourceStop? || call.CallDisarm? }

  lemma RequestCallKeeps(cfg: Config, s: Sink, call: Call, ok: bool)
    requires Inv(s) && IsRequest(call)
    ensures Inv(Perform(cfg, s, call, ok).sink)
    ensures ok && !s.faulted ==> !Perform(cfg, s, call, ok).sink.faulted
  {
    match call
    case CallHandoff(b, now) => HandoffCallKeeps(s, b, now, ok);
    case CallStop(now) => StopCallKeeps(s, now, ok);
    case CallSourceStop(b, g, now) => SourceStopCallKeeps(s, b, g, now, ok);
    case CallDisarm(now) => DisarmKeeps(s, now, ok);
  }

  lemma OtherCallKeeps(cfg: Config, s: Sink, call: Call, ok: bool)
    requires Inv(s) && !IsRequest(call)
    ensures Inv(Perform(cfg, s, call, ok).sink)
    ensures ok && !s.faulted ==> !Perform(cfg, s, call, ok).sink.faulted
  {
    match call
    case CallInitialize(f) => InitializeKeeps(s, f);
    case CallObserve(f) => ObserveCallKeeps(cfg, s, f, ok);
    case CallInvalidate(now, alive) => InvalidateCallKeeps(cfg, s, now, alive, ok);
    case CallSubmit(c, now) => SubmitKeeps(cfg, s, c, now, ok);
    case CallTick(now) => TickKeeps(cfg, s, now, ok);
  }

  /** Every call keeps the invariant, and without a serial failure none faults. */
  lemma PerformKeeps(cfg: Config, s: Sink, call: Call, ok: bool)
    requires Inv(s)
    ensures Inv(Perform(cfg, s, call, ok).sink)
    ensures ok && !s.faulted ==> !Perform(cfg, s, call, ok).sink.faulted
  {
    if IsRequest(call) {
      RequestCallKeeps(cfg, s, call, ok);
    } else {
      OtherCallKeeps(cfg, s, call, ok);
    }
  }
}
