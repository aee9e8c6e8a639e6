/** What the command sink guarantees over every run: any interleaving of calls,
    any telemetry, any serial failure. */
module SinkTheorems {
  import opened Wrappers
  import opened ResidentMotion
  import opened ResidentCommands
  import opened ResidentSink
  import opened HandoffInvariant
  import opened SinkPreservation

  lemma {:induction false} EveryRunKeepsInvariant(cfg: Config, calls: seq<TimedCall>)
    ensures Inv(Run(cfg, calls))
  {
    if calls != [] {
      var last := calls[|calls| - 1];
      EveryRunKeepsInvariant(cfg, calls[..|calls| - 1]);
      PerformKeeps(cfg, Run(cfg, calls[..|calls| - 1]), last.call, last.ok);
    }
  }

  // ---------- the histories are faithful ----------

  /** A call adds at most one command, and only if the serial port took it. */
  predicate LogGrows(s: Sink, t: Sink, ok: bool) {
    && s.seen <= t.seen && s.log <= t.log && |t.log| <= |s.log| + 1
    && (|t.log| > |s.log| ==> ok && Last(t).commandSeq == s.nextSequence)
  }

  /** ... and that command is a zero no policy asked for. */
  predicate ZeroGrows(s: Sink, t: Sink, ok: bool) {
    LogGrows(s, t, ok) && (|t.log| > |s.log| ==> !Nonzero(Last(t)) && !Last(t).accepted)
  }

  /** A result says truthfully whether a command went out, and which. */
  predicate Reported(s: Sink, t: Sink, r: WriteResult) {
    if r.writePerformed then
      && |t.log| == |s.log| + 1
      && r.commandSeq == Some(Last(t).commandSeq) && r.mode == Some(Last(t).mode) && r.effectiveAction == Last(t).action
      && r.accepted == Last(t).accepted && r.reason == Last(t).reason
    else t.log == s.log && !r.accepted && r.commandSeq.None? && r.effectiveAction == ZERO_ACTION
  }

  predicate Faithful(s: Sink, step: Step, ok: bool) {
    && LogGrows(s, step.sink, ok)
    && (step.outcome.Result? ==> Reported(s, step.sink, step.outcome.result))
  }

  predicate FaithfulZero(s: Sink, step: Step, ok: bool) {
    && ZeroGrows(s, step.sink, ok)
    && (step.outcome.Result? ==> Reported(s, step.sink, step.outcome.result))
  }

  lemma WriteIsFaithful(s: Sink, mode: ControlMode, action: Action, now: nat, reason: Reason, accepted: bool, ok: bool)
    ensures Faithful(s, WriteCommand(s, mode, action, now, reason, accepted, ok), ok)
    ensures action == ZERO_ACTION && !accepted ==>
              FaithfulZero(s, WriteCommand(s, mode, action, now, reason, accepted, ok), ok)
    ensures WriteCommand(s, mode, action, now, reason, accepted, ok).outcome.Failed? ==>
              WriteCommand(s, mode, action, now, reason, accepted, ok).sink.log == s.log
  {
    var step := WriteCommand(s, mode, action, now, reason, accepted, ok);
    if Encodable(mode, action) && ok {
      var w := Command(s, mode, action, now, reason, accepted);
      assert step.sink == Appended(s, w);
      assert Last(step.sink) == w;
    } else {
      assert step.sink.log == s.log && step.sink.seen == s.seen && step.outcome.Failed?;
    }
  }

  lemma IssueIsFaithful(s: Sink, h: Sink, now: nat, reason: Option<Reason>, ok: bool)
    requires h.log == s.log && h.seen == s.seen && h.nextSequence == s.nextSequence
    ensures FaithfulZero(s, IssuePendingZero(h, now, reason, ok), ok)
  {
    var q := PendingZeroOf(h.authority);
    if q.ZeroPending? {
      var why := if reason.Some? then reason.value else PurposeReason(q.zero.purpose);
      var w := WriteCommand(h, q.zero.mode, ZERO_ACTION, now, why, false, ok);
      WriteIsFaithful(h, q.zero.mode, ZERO_ACTION, now, why, false, ok);
      assert IssuePendingZero(h, now, reason, ok).sink.log == w.sink.log;
    }
  }

  lemma AcknowledgeIsFaithful(cfg: Config, s: Sink, f: Telemetry, ok: bool)
    ensures ZeroGrows(s, AcknowledgePhase(cfg, s, f, ok).sink, ok)
    ensures var t := AcknowledgePhase(cfg, s, f, ok);
      !t.outcome.Failed? ==>
        if t.sink.log == s.log then t.sink.nextSequence == s.nextSequence else t.sink.authority.active.None?
  {
    if s.pendingAck.Some? && AckMatches(cfg, s, s.pendingAck.value, f) {
      var p := s.pendingAck.value;
      var ack := ZeroAcknowledged(s.authority, p.generation, p.mode, ZERO_ACTION, f.receivedNs);
      if ack.Ok? {
        var h := s.(authority := ack.value, measurement := MeasurementAfterAck(s, p, f), pendingAck := None);
        IssueIsFaithful(s, h, f.receivedNs, None, ok);
        IssueKeepsAuthority(h, f.receivedNs, None, ok);
      }
    }
  }

  lemma IssueKeepsAuthority(s: Sink, now: nat, reason: Option<Reason>, ok: bool)
    ensures IssuePendingZero(s, now, reason, ok).sink.authority == s.authority
  {}

  lemma StopIsFaithful(s: Sink, now: nat, reason: Option<Reason>, ok: bool)
    ensures FaithfulZero(s, StopAndZero(s, now, reason, ok), ok)
  {
    IssueIsFaithful(s, Unmeasured(s).(authority := StopRequested(s.authority, now), lease := None, latched := true,
                                      pendingAck := None), now, reason, ok);
  }

  /** The last two phases of an observation write only for a safety stop. */
  lemma SettledIsFaithful(cfg: Config, s: Sink, f: Telemetry, ok: bool)
    ensures ZeroGrows(s, SafetyPhase(cfg, s, f, ok).sink, ok)
    ensures s.authority.active.None? ==> SafetyPhase(cfg, s, f, ok).sink == s
  {
    if s.authority.active.Some? {
      StopIsFaithful(s, f.receivedNs, Some(UnsafeTelemetry), ok);
    }
  }

  lemma GrowsThen(s: Sink, m: Sink, t: Sink, ok: bool)
    requires ZeroGrows(s, m, ok) && ZeroGrows(m, t, ok)
    requires if m.log == s.log then m.nextSequence == s.nextSequence else t.log == m.log
    ensures ZeroGrows(s, t, ok)
  {}

  lemma ProcessIsFaithful(cfg: Config, s: Sink, f: Telemetry, ok: bool)
    ensures ZeroGrows(s, ProcessRow(cfg, s, f, ok).sink, ok)
    ensures !ProcessRow(cfg, s, f, ok).outcome.Result?
  {
    AcknowledgeIsFaithful(cfg, s, f, ok);
    var ack := AcknowledgePhase(cfg, s, f, ok);
    if !ack.outcome.Failed? {
      var first := FirstNonzeroPhase(ack.sink, f).sink;
      FirstNonzeroWritesNothing(ack.sink, f);
      GrowsThen(s, ack.sink, first, ok);
      SettledIsFaithful(cfg, first, f, ok);
      GrowsThen(s, first, SafetyPhase(cfg, first, f, ok).sink, ok);
    }
  }

  lemma ObserveIsFaithful(cfg: Config, s: Sink, f: Telemetry, ok: bool)
    ensures ZeroGrows(s, ObserveLocked(cfg, s, f, ok).sink, ok)
    ensures !ObserveLocked(cfg, s, f, ok).outcome.Result?
    ensures s.seen + [Seen(f, |s.log|)] <= ObserveLocked(cfg, s, f, ok).sink.seen
  {
    ProcessIsFaithful(cfg, Recorded(s, f).(telemetry := Some(f)), f, ok);
  }

  lemma FirstNonzeroWritesNothing(s: Sink, f: Telemetry)
    ensures var t := FirstNonzeroPhase(s, f).sink;
      && t.log == s.log && t.seen == s.seen && t.nextSequence == s.nextSequence
      && t.authority.active == s.authority.active && t.authority.phase == s.authority.phase
      && t.authority.generation == s.authority.generation
  {}

  /** What follows the write of a candidate leaves the histories alone. */
  lemma CandidateBookkeeping(s: Sink, w: Sink, c: MotionCandidate, d: RoutedCommand, now: nat)
    ensures var t := AfterCandidateWrite(w, c, d, s.nextSequence, now);
      t.authority == w.authority && t.seen == w.seen && t.log == w.log
  {}

  lemma WriteCandidateIsFaithful(s: Sink, c: MotionCandidate, d: RoutedCommand, now: nat, ok: bool)
    requires d.mode.Some?
    ensures Faithful(s, WriteCandidate(s, c, d, now, ok), ok)
  {
    var w := WriteCommand(s, d.mode.value, d.effectiveAction, now, d.reason, d.accepted, ok);
    WriteIsFaithful(s, d.mode.value, d.effectiveAction, now, d.reason, d.accepted, ok);
    CandidateBookkeeping(s, w.sink, c, d, now);
  }

  lemma SubmitIsFaithful(cfg: Config, s: Sink, c: MotionCandidate, now: nat, ok: bool)
    ensures Faithful(s, SubmitCandidate(cfg, s, c, now, ok), ok)
  {
    var d := Routed(cfg, s, c, now);
    if d.reason.SafetyRejected? {
      StopIsFaithful(s, now, Some(SafetyRejected), ok);
    } else if d.mode.Some? {
      WriteCandidateIsFaithful(s, c, d, now, ok);
    }
  }

  lemma WatchdogIsFaithful(cfg: Config, s: Sink, hadLease: bool, now: nat, ok: bool)
    ensures FaithfulZero(s, TickWatchdog(cfg, s, hadLease, now, ok), ok)
  {
    if s.authority.active.Some? {
      if SafetyPermits(cfg, s, now, s.authority.active.value.mode) {
        WriteIsFaithful(s, s.authority.active.value.mode, ZERO_ACTION, now, IdleKeepalive, false, ok);
      } else {
        StopIsFaithful(s, now, Some(StateWatchdog), ok);
      }
    }
  }

  lemma TickIsFaithful(cfg: Config, s: Sink, now: nat, ok: bool)
    requires Inv(s)
    ensures FaithfulZero(s, Tick(cfg, s, now, ok), ok)
  {
    if Operational(s) {
      if s.lease.Some? {
        LeaseIsNeverForeign(s);
      }
      if s.lease.Some? && now > s.lease.value.validUntilNs {
        StopIsFaithful(s, now, Some(CandidateLeaseExpired), ok);
      } else {
        WatchdogIsFaithful(cfg, s, s.lease.Some?, now, ok);
      }
    }
  }

  lemma DisarmIsFaithful(s: Sink, now: nat, ok: bool)
    ensures FaithfulZero(s, TerminallyDisarm(s, now, ok), ok)
  {}

  lemma HandoffIsFaithful(s: Sink, b: PolicyBinding, now: nat, ok: bool)
    ensures Faithful(s, RequestHandoff(s, b, now, ok), ok)
  {}

  lemma RequestStopIsFaithful(s: Sink, now: nat, ok: bool)
    ensures Faithful(s, RequestStop(s, now, ok), ok)
  {}

  lemma SourceStopIsFaithful(s: Sink, b: PolicyBinding, g: nat, now: nat, ok: bool)
    ensures Faithful(s, RequestSourceStop(s, b, g, now, ok), ok)
  {}

  lemma RequestIsFaithful(cfg: Config, s: Sink, call: Call, ok: bool)
    requires IsRequest(call)
    ensures Faithful(s, Perform(cfg, s, call, ok), ok)
  {
    match call
    case CallHandoff(b, now) => HandoffIsFaithful(s, b, now, ok);
    case CallStop(now) => RequestStopIsFaithful(s, now, ok);
    case CallSourceStop(b, g, now) => SourceStopIsFaithful(s, b, g, now, ok);
    case CallDisarm(now) => DisarmIsFaithful(s, now, ok);
  }

  /** Histories are append-only, one command at most for each call, and a
      returned result tells exactly what was appended. */
  lemma HistoriesAreFaithful(cfg: Config, s: Sink, call: Call, ok: bool)
    requires Inv(s)
    ensures Faithful(s, Perform(cfg, s, call, ok), ok)
    ensures call.CallObserve? && s.synchronized ==>
              s.seen + [Seen(call.frame, |s.log|)] <= Perform(cfg, s, call, ok).sink.seen
  {
    if IsRequest(call) {
      RequestIsFaithful(cfg, s, call, ok);
    } else {
      match call
      case CallInitialize(f) =>
      case CallObserve(f) => if s.synchronized { ObserveIsFaithful(cfg, s, f, ok); }
      case CallInvalidate(now, alive) =>
        if s.synchronized { ObserveIsFaithful(cfg, s, InvalidRow(s.telemetry.value, now, alive), ok); }
      case CallSubmit(c, now) => SubmitIsFaithful(cfg, s, c, now, ok);
      case CallTick(now) => TickIsFaithful(cfg, s, now, ok);
    }
  }

  // ---------- two-zero handoff ----------

  /** Over every run: between two motions of different generations lies an
      acknowledged zero in the old mode and, after it, an acknowledged zero of
      the new generation in the new mode; one policy moves per generation; the
      wire mode changes only between two zeros. */
  lemma EveryHandoffPassesTwoZeros(cfg: Config, calls: seq<TimedCall>)
    ensures var s := Run(cfg, calls);
      TwoZeroHandoff(s.log, s.seen) && OnePolicyPerGeneration(s.log) && ModeChangesBetweenZeros(s.log)
  {
    EveryRunKeepsInvariant(cfg, calls);
  }

  // ---------- dead man ----------

  /** Whenever the serial port still works, the machine moves only under a
      lease of the active policy of the current generation. */
  lemma MotionIsAlwaysLeased(cfg: Config, calls: seq<TimedCall>)
    requires !Run(cfg, calls).faulted
    ensures var s := Run(cfg, calls);
      && (LastIsNonzero(s) <==> s.lease.Some?)
      && (LastIsNonzero(s) ==>
            && Operational(s) && s.authority.phase.Active? && !s.latched && s.pendingAck.None?
            && s.authority.active == Some(s.lease.value.binding)
            && s.lease.value.generation == s.authority.generation == Last(s).generation
            && WrittenBy(Last(s), s.authority.active))
  {
    EveryRunKeepsInvariant(cfg, calls);
  }

  /** After a tick the machine still moves only if the lease has not expired and
      telemetry is fresh, safe and in the commanded mode at that very instant. */
  lemma TickStopsUnjustifiedMotion(cfg: Config, s: Sink, now: nat, ok: bool)
    requires Inv(s) && Operational(s)
    ensures var t := Tick(cfg, s, now, ok).sink;
      LastIsNonzero(t) && !t.faulted ==>
        t.lease.Some? && now <= t.lease.value.validUntilNs && SafetyPermits(cfg, t, now, Last(t).mode)
  {
    TickKeeps(cfg, s, now, ok);
    if s.lease.Some? && (now > s.lease.value.validUntilNs || !SafetyPermits(cfg, s, now, s.authority.active.value.mode)) {
      LeaseIsNeverForeign(s);
      StopEndsMotion(s, now, Some(CandidateLeaseExpired), ok);
      StopEndsMotion(s, now, Some(StateWatchdog), ok);
    } else if s.lease.None? {
      WatchdogNeverMoves(cfg, s, now, ok);
    }
  }

  lemma WatchdogNeverMoves(cfg: Config, s: Sink, now: nat, ok: bool)
    requires Inv(s) && Operational(s) && s.lease.None?
    ensures TickWatchdog(cfg, s, false, now, ok).sink.lease.None?
  {}

  lemma StopEndsMotion(s: Sink, now: nat, reason: Option<Reason>, ok: bool)
    requires Inv(s) && Operational(s)
    ensures StopAndZero(s, now, reason, ok).sink.lease.None?
    ensures !StopAndZero(s, now, reason, ok).sink.faulted ==> !LastIsNonzero(StopAndZero(s, now, reason, ok).sink)
  {}

  /** After any row that is not older than the last one, the machine still
      moves only if that row itself is safe in the commanded mode; so an
      invalidated row, which never is, always ends motion. */
  lemma RowStopsUnsafeMotion(cfg: Config, s: Sink, f: Telemetry, ok: bool)
    requires Inv(s) && s.synchronized && !Regresses(s, f)
    ensures var t := ObserveTelemetry(cfg, s, f, ok).sink;
      LastIsNonzero(t) && !t.faulted ==> SafeFrame(f, Last(t).mode)
  {
    ObserveKeeps(cfg, s, f, ok);
    if Operational(s) {
      var u := Recorded(s, f).(telemetry := Some(f));
      RowKeeps(s, f);
      ProcessEndsUnsafeMotion(cfg, u, f, ok);
    }
  }

  lemma ProcessEndsUnsafeMotion(cfg: Config, s: Sink, f: Telemetry, ok: bool)
    requires Inv(s) && Operational(s) && Observing(s, f)
    ensures var t := ProcessRow(cfg, s, f, ok).sink;
      LastIsNonzero(t) && !t.faulted ==> SafeFrame(f, Last(t).mode)
  {
    AckKeeps(cfg, s, f, ok);
    var ack := AcknowledgePhase(cfg, s, f, ok);
    if !ack.outcome.Failed? {
      AckStaysOperational(cfg, s, f, ok);
      FirstNonzeroKeeps(ack.sink, f);
      SafetyEndsUnsafeMotion(cfg, FirstNonzeroPhase(ack.sink, f).sink, f, ok);
    } else {
      RefusedAckChangesNothing(cfg, s, f, ok);
    }
  }

  lemma RefusedAckChangesNothing(cfg: Config, s: Sink, f: Telemetry, ok: bool)
    requires Inv(s) && Operational(s) && Observing(s, f)
    requires AcknowledgePhase(cfg, s, f, ok).outcome.Failed?
    ensures s.pendingAck.Some? && !LastIsNonzero(s)
    ensures AcknowledgePhase(cfg, s, f, ok).sink == s || AcknowledgePhase(cfg, s, f, ok).sink.faulted
  {}

  lemma SafetyEndsUnsafeMotion(cfg: Config, s: Sink, f: Telemetry, ok: bool)
    requires Inv(s) && Operational(s) && s.telemetry == Some(f)
    ensures var t := SafetyPhase(cfg, s, f, ok).sink;
      LastIsNonzero(t) && !t.faulted ==> SafeFrame(f, Last(t).mode)
  {
    if s.authority.active.Some? && !SafetyPermits(cfg, s, f.receivedNs, s.authority.active.value.mode) && !s.latched {
      StopEndsMotion(s, f.receivedNs, Some(UnsafeTelemetry), ok);
    }
  }

  lemma InvalidRowIsUnsafe(previous: Telemetry, now: nat, alive: bool, mode: ControlMode)
    ensures !SafeFrame(InvalidRow(previous, now, alive), mode)
  {}

  /** Telemetry revokes authority exactly when the unsafe latch was not already
      set: an unsafe row on an active policy opens a new generation iff the
      sink was unlatched.  (The last command is zero either way.) */
  lemma UnsafeRowRevokesIffUnlatched(cfg: Config, s: Sink, f: Telemetry)
    requires Inv(s) && Operational(s) && s.authority.phase.Active? && !Regresses(s, f)
    requires !SafeFrame(f, s.authority.active.value.mode)
    ensures var t := ObserveTelemetry(cfg, s, f, true).sink;
      && (t.authority.generation > s.authority.generation <==> !s.latched)
      && (t.authority.phase.Active? <==> s.latched)
      && !LastIsNonzero(t)
  {
    var u := Recorded(s, f).(telemetry := Some(f));
    RowKeeps(s, f);
    FirstNonzeroKeeps(u, f);
    FirstNonzeroWritesNothing(u, f);
    var first := FirstNonzeroPhase(u, f).sink;
    assert first.latched == s.latched;
    StopEndsMotion(first, f.receivedNs, Some(UnsafeTelemetry), true);
    StopKeeps(first, f.receivedNs, Some(UnsafeTelemetry), true);
    IssueKeepsAuthority(Unmeasured(first).(authority := StopRequested(first.authority, f.receivedNs), lease := None,
                                           latched := true, pendingAck := None), f.receivedNs, Some(UnsafeTelemetry), true);
  }

  /** A zero that waits for its echo is never sent again by a tick. */
  lemma PendingZeroIsNotResent(cfg: Config, s: Sink, now: nat, ok: bool)
    requires Inv(s) && Operational(s) && s.pendingAck.Some?
    ensures Tick(cfg, s, now, ok) == Step(s, Done)
  {}

  // ---------- terminal disarm ----------

  /** Nothing but the current row and the record of rows may still change. */
  predicate OnlyRowsChange(s: Sink, t: Sink) {
    t == s.(telemetry := t.telemetry, seen := t.seen)
  }

  lemma DisarmedObserve(cfg: Config, s: Sink, f: Telemetry, now: nat, alive: bool, ok: bool)
    requires s.synchronized && s.disarmed
    ensures OnlyRowsChange(s, ObserveTelemetry(cfg, s, f, ok).sink)
    ensures OnlyRowsChange(s, InvalidateTelemetry(cfg, s, now, alive, ok).sink)
  {
    assert forall g: Telemetry {:trigger Recorded(s, g)} :: OnlyRowsChange(s, Recorded(s, g));
  }

  /** Once disarmed, no call writes, re-arms the sink or moves its authority. */
  lemma DisarmIsFinal(cfg: Config, s: Sink, call: Call, ok: bool)
    requires s.synchronized && s.disarmed
    ensures OnlyRowsChange(s, Perform(cfg, s, call, ok).sink)
  {
    match call
    case CallObserve(f) => DisarmedObserve(cfg, s, f, 0, false, ok);
    case CallInvalidate(now, alive) => if s.telemetry.Some? { DisarmedObserve(cfg, s, s.telemetry.value, now, alive, ok); }
    case _ =>
  }

  lemma {:induction false} DisarmedRunNeverWrites(cfg: Config, s: Sink, calls: seq<TimedCall>)
    requires s.synchronized && s.disarmed
    ensures OnlyRowsChange(s, RunFrom(cfg, s, calls))
    decreases |calls|
  {
    if calls != [] {
      DisarmIsFinal(cfg, s, calls[0].call, calls[0].ok);
      DisarmedRunNeverWrites(cfg, Perform(cfg, s, calls[0].call, calls[0].ok).sink, calls[1..]);
    }
  }

  /** terminal_disarm ends on a written zero, or writes nothing because the sink
      is idle and every motion was already acknowledged to zero. */
  lemma DisarmEndsOnZero(s: Sink, now: nat, ok: bool)
    requires Inv(s) && Operational(s)
    ensures var step := TerminallyDisarm(s, now, ok); var t := step.sink;
      && t.disarmed && !Operational(t)
      && (t.faulted <==> step.outcome.Failed?) && (step.outcome.Failed? ==> !ok)
      && (!t.faulted ==>
            && step.outcome.Result? && !LastIsNonzero(t)
            && if step.outcome.result.writePerformed then
                 t.log != [] && Last(t).action == ZERO_ACTION && step.outcome.result.commandSeq == Some(Last(t).commandSeq) &&
                 step.outcome.result.mode == Some(Last(t).mode)
               else AllMotionReleased(t))
  {
    DisarmKeeps(s, now, ok);
    DisarmIsFaithful(s, now, ok);
    if DisarmMode(s).None? {
      forall a | 0 <= a < |s.log| && Nonzero(s.log[a]) ensures Released(s.log, s.seen, a, |s.log|) {
        assert ProgressFrom(s, a);
      }
    }
  }

  /** Every motion was followed by an acknowledged zero in its own mode. */
  ghost predicate AllMotionReleased(s: Sink) {
    forall a | 0 <= a < |s.log| && Nonzero(s.log[a]) :: Released(s.log, s.seen, a, |s.log|)
  }

  // ---------- errors, sequence ----------

  /** The environment assumption, used only where it is named: a row that
      echoes a sequence is received no earlier than that command was written. */
  ghost predicate EchoCausal(s: Sink, f: Telemetry) {
    forall i | 0 <= i < |s.log| && s.log[i].commandSeq == f.rxSeq :: s.log[i].at <= f.receivedNs
  }

  /** The row a call hands to the sink, if any. */
  function RowOf(s: Sink, call: Call): Option<Telemetry> {
    match call
    case CallObserve(f) => Some(f)
    case CallInvalidate(now, alive) =>
      if s.telemetry.None? then None else Some(InvalidRow(s.telemetry.value, now, alive))
    case _ => None
  }

  /** The errors a caller can see: refusals of a sink that is not operational, a
      serial write that failed, or an echo from before its own command. */
  ghost predicate Foreseen(s: Sink, row: Option<Telemetry>, ok: bool, o: Outcome) {
    o.Failed? ==>
      || (o.error in {NotInitialized, OwnerFaulted, OwnerDisarmed} && !Operational(s))
      || (o.error == AlreadyInitialized && s.synchronized)
      || (o.error == SerialFault && !ok)
      || (o.error == AckPredatesRequest && row.Some? && !EchoCausal(s, row.value))
  }

  lemma StopErrors(s: Sink, binding: PolicyBinding, generation: nat, now: nat, ok: bool)
    requires Inv(s)
    ensures Foreseen(s, None, ok, RequestStop(s, now, ok).outcome)
    ensures Foreseen(s, None, ok, RequestSourceStop(s, binding, generation, now, ok).outcome)
    ensures Foreseen(s, None, ok, RequestHandoff(s, binding, now, ok).outcome)
  {
    if Operational(s) {
      StopKeeps(s, now, None, ok);
      HandoffKeeps(s, binding, now, ok);
    }
  }

  lemma ObserveErrors(cfg: Config, s: Sink, f: Telemetry, ok: bool)
    requires Inv(s)
    ensures Foreseen(s, Some(f), ok, ObserveTelemetry(cfg, s, f, ok).outcome)
  {
    if s.synchronized { ObserveKeeps(cfg, s, f, ok); }
  }

  /** No call raises any of the errors the source reserves for broken
      bookkeeping; under echo causality acknowledging never raises at all. */
  lemma OnlyForeseenErrors(cfg: Config, s: Sink, call: Call, ok: bool)
    requires Inv(s)
    ensures Foreseen(s, RowOf(s, call), ok, Perform(cfg, s, call, ok).outcome)
  {
    if IsRequest(call) {
      RequestErrors(cfg, s, call, ok);
    } else {
      match call
      case CallInitialize(f) =>
      case CallObserve(f) => ObserveErrors(cfg, s, f, ok);
      case CallInvalidate(now, alive) =>
        if s.telemetry.Some? { ObserveErrors(cfg, s, InvalidRow(s.telemetry.value, now, alive), ok); }
      case CallSubmit(c, now) => SubmitKeeps(cfg, s, c, now, ok);
      case CallTick(now) => TickKeeps(cfg, s, now, ok);
    }
  }

  lemma RequestErrors(cfg: Config, s: Sink, call: Call, ok: bool)
    requires Inv(s) && IsRequest(call)
    ensures Foreseen(s, None, ok, Perform(cfg, s, call, ok).outcome)
  {
    match call
    case CallHandoff(b, now) => StopErrors(s, b, 0, now, ok);
    case CallStop(now) => StopErrors(s, PolicyBinding("", ManualAction), 0, now, ok);
    case CallSourceStop(b, g, now) => StopErrors(s, b, g, now, ok);
    case CallDisarm(now) => DisarmKeeps(s, now, ok);
  }

  /** Only the serial port can fault the sink: what routing accepts, encodes. */
  lemma {:induction false} FaultsComeFromTheSerialPort(cfg: Config, calls: seq<TimedCall>)
    requires forall i | 0 <= i < |calls| :: calls[i].ok
    ensures !Run(cfg, calls).faulted
  {
    if calls != [] {
      var last := calls[|calls| - 1];
      FaultsComeFromTheSerialPort(cfg, calls[..|calls| - 1]);
      EveryRunKeepsInvariant(cfg, calls[..|calls| - 1]);
      PerformKeeps(cfg, Run(cfg, calls[..|calls| - 1]), last.call, last.ok);
    }
  }

  /** The i-th command of a run carries start + i, modulo 2^32. */
  lemma {:induction false} SequenceHasNoGaps(start: Sequence, log: seq<Write>, i: nat)
    requires GaplessFrom(start, log) && i < |log|
    ensures log[i].commandSeq == (start + i) % 0x1_0000_0000
  {
    if i > 0 {
      SequenceHasNoGaps(start, log, i - 1);
      SuccessorWraps(log[i - 1].commandSeq);
    }
  }

  lemma EveryRunIsGapless(cfg: Config, calls: seq<TimedCall>)
    ensures GaplessFrom(Run(cfg, calls).start, Run(cfg, calls).log)
  {
    EveryRunKeepsInvariant(cfg, calls);
  }

  /** Over every run, across mode switches: the i-th command the serial port took
      carries the number start + i, modulo 2^32. */
  lemma {:induction false} CommandsAreNumberedConsecutively(cfg: Config, calls: seq<TimedCall>, s: Sink, i: nat)
    requires s == Run(cfg, calls) && i < |s.log|
    ensures s.log[i].commandSeq == (s.start + i) % 0x1_0000_0000
  {
    EveryRunIsGapless(cfg, calls);
    SequenceHasNoGaps(s.start, s.log, i);
  }
}
