/** What each sink call does to the generation, its owner and the accepted
    commands: the part of the sink that its callers' bookkeeping rests on. */
module SinkEffects {
  import opened Wrappers
  import opened ResidentMotion
  import opened ResidentSink
  import opened HandoffInvariant
  import opened SinkPreservation
  import opened SinkTheorems

  /** The number of accepted commands logged at a generation. */
  function AcceptedAt(log: seq<Write>, generation: nat): nat {
    if log == [] then 0
    else AcceptedAt(log[..|log| - 1], generation) +
         if log[|log| - 1].accepted && log[|log| - 1].generation == generation then 1 else 0
  }

  lemma {:induction false} NothingAcceptedYet(log: seq<Write>, generation: nat)
    requires forall i | 0 <= i < |log| :: log[i].generation < generation
    ensures AcceptedAt(log, generation) == 0
  {
    if log != [] {
      NothingAcceptedYet(log[..|log| - 1], generation);
    }
  }

  /** The current generation either keeps its owner or is superseded. */
  predicate OwnerKept(a: AuthorityState, b: AuthorityState) {
    b.generation > a.generation || (b.generation == a.generation && Owner(b) == Owner(a))
  }

  /** No command of a policy was accepted, and no generation changed hands. */
  predicate NoAcceptance(s: Sink, t: Sink) {
    && s.log <= t.log && |t.log| <= |s.log| + 1 && (|t.log| > |s.log| ==> !Last(t).accepted)
    && s.seen <= t.seen
    && OwnerKept(s.authority, t.authority)
  }

  lemma CountKept(s: Sink, t: Sink, generation: nat)
    requires NoAcceptance(s, t)
    ensures AcceptedAt(t.log, generation) == AcceptedAt(s.log, generation)
  {
    if |t.log| > |s.log| {
      assert t.log[..|t.log| - 1] == s.log;
    } else {
      assert t.log == s.log;
    }
  }

  lemma StopMoves(s: Sink, now: nat, reason: Option<Reason>, ok: bool)
    ensures StopAndZero(s, now, reason, ok).sink.authority == StopRequested(s.authority, now)
    ensures NoAcceptance(s, StopAndZero(s, now, reason, ok).sink)
  {
    StopIsFaithful(s, now, reason, ok);
    IssueKeepsAuthority(Unmeasured(s).(authority := StopRequested(s.authority, now), lease := None, latched := true,
                                       pendingAck := None), now, reason, ok);
  }

  lemma SourceStopMoves(s: Sink, binding: PolicyBinding, generation: nat, now: nat, ok: bool)
    ensures NoAcceptance(s, RequestSourceStop(s, binding, generation, now, ok).sink)
    ensures RequestSourceStop(s, binding, generation, now, ok).outcome == Stopped(true) ==>
              RequestSourceStop(s, binding, generation, now, ok).sink.authority.generation == s.authority.generation + 1
  {
    StopMoves(s, now, None, ok);
  }

  lemma HandoffMoves(s: Sink, binding: PolicyBinding, now: nat, ok: bool)
    ensures NoAcceptance(s, RequestHandoff(s, binding, now, ok).sink)
    ensures Operational(s) ==>
              RequestHandoff(s, binding, now, ok).sink.authority == HandoffRequested(s.authority, binding, now)
    ensures RequestHandoff(s, binding, now, ok).outcome.Failed? ||
            (Operational(s) && RequestHandoff(s, binding, now, ok).outcome == Generation(s.authority.generation + 1))
  {}

  lemma AckKeepsOwner(cfg: Config, s: Sink, f: Telemetry, ok: bool)
    requires WellShaped(s.authority)
    ensures OwnerKept(s.authority, AcknowledgePhase(cfg, s, f, ok).sink.authority)
  {
    if s.pendingAck.Some? && AckMatches(cfg, s, s.pendingAck.value, f) {
      var p := s.pendingAck.value;
      var ack := ZeroAcknowledged(s.authority, p.generation, p.mode, ZERO_ACTION, f.receivedNs);
      if ack.Ok? {
        IssueKeepsAuthority(s.(authority := ack.value, measurement := MeasurementAfterAck(s, p, f), pendingAck := None),
                            f.receivedNs, None, ok);
      }
    }
  }

  lemma FirstNonzeroKeepsOwner(s: Sink, f: Telemetry)
    ensures OwnerKept(s.authority, FirstNonzeroPhase(s, f).sink.authority)
  {}

  lemma SafetyKeepsOwner(cfg: Config, s: Sink, f: Telemetry, ok: bool)
    ensures OwnerKept(s.authority, SafetyPhase(cfg, s, f, ok).sink.authority)
  {}

  lemma ProcessKeepsOwner(cfg: Config, s: Sink, f: Telemetry, ok: bool)
    requires WellShaped(s.authority)
    ensures OwnerKept(s.authority, ProcessRow(cfg, s, f, ok).sink.authority)
  {
    var ack := AcknowledgePhase(cfg, s, f, ok);
    AckKeepsOwner(cfg, s, f, ok);
    FirstNonzeroKeepsOwner(ack.sink, f);
    SafetyKeepsOwner(cfg, FirstNonzeroPhase(ack.sink, f).sink, f, ok);
  }

  lemma ObserveMoves(cfg: Config, s: Sink, f: Telemetry, ok: bool)
    requires WellShaped(s.authority)
    ensures NoAcceptance(s, ObserveTelemetry(cfg, s, f, ok).sink)
    ensures s.synchronized ==> s.seen + [Seen(f, |s.log|)] <= ObserveTelemetry(cfg, s, f, ok).sink.seen
  {
    ObserveIsFaithful(cfg, s, f, ok);
    ProcessKeepsOwner(cfg, Recorded(s, f).(telemetry := Some(f)), f, ok);
  }

  lemma InvalidateMoves(cfg: Config, s: Sink, now: nat, alive: bool, ok: bool)
    requires WellShaped(s.authority)
    ensures NoAcceptance(s, InvalidateTelemetry(cfg, s, now, alive, ok).sink)
  {
    if s.telemetry.Some? {
      ObserveMoves(cfg, s, InvalidRow(s.telemetry.value, now, alive), ok);
    }
  }

  lemma TickMoves(cfg: Config, s: Sink, now: nat, ok: bool)
    requires Inv(s)
    ensures NoAcceptance(s, Tick(cfg, s, now, ok).sink)
  {
    if Operational(s) {
      if s.lease.Some? {
        LeaseIsNeverForeign(s);
      }
      if s.lease.Some? && now > s.lease.value.validUntilNs {
        StopMoves(s, now, Some(CandidateLeaseExpired), ok);
      } else {
        WatchdogMoves(cfg, s, s.lease.Some?, now, ok);
      }
    }
  }

  lemma WatchdogMoves(cfg: Config, s: Sink, hadLease: bool, now: nat, ok: bool)
    ensures NoAcceptance(s, TickWatchdog(cfg, s, hadLease, now, ok).sink)
  {
    WatchdogIsFaithful(cfg, s, hadLease, now, ok);
    StopMoves(s, now, Some(StateWatchdog), ok);
  }

  lemma DisarmMoves(s: Sink, now: nat, ok: bool)
    ensures NoAcceptance(s, TerminallyDisarm(s, now, ok).sink)
  {}

  /** A submission is the only call that logs an accepted command: the
      candidate's own, for the owner of the current generation. */
  predicate LogsAccepted(s: Sink, t: Sink, c: MotionCandidate, r: WriteResult) {
    && s.authority.phase.Active? && s.authority.active == Some(PolicyBinding(c.source, c.mode))
    && c.generation == s.authority.generation
    && t.authority == s.authority && t.seen == s.seen && |t.log| == |s.log| + 1 && t.log[..|s.log|] == s.log
    && Last(t).accepted && Last(t).generation == c.generation
    && r.commandSeq == Some(Last(t).commandSeq) && r.effectiveAction == c.action == Last(t).action
    && r.mode == Some(c.mode) == Some(Last(t).mode)
  }

  lemma SubmitMoves(cfg: Config, s: Sink, c: MotionCandidate, now: nat, ok: bool)
    ensures var step := SubmitCandidate(cfg, s, c, now, ok);
      if step.outcome.Result? && step.outcome.result.accepted then LogsAccepted(s, step.sink, c, step.outcome.result)
      else NoAcceptance(s, step.sink)
  {
    var d := Routed(cfg, s, c, now);
    if Operational(s) && d.reason.SafetyRejected? {
      StopMoves(s, now, Some(SafetyRejected), ok);
      StopIsFaithful(s, now, Some(SafetyRejected), ok);
    } else if Operational(s) && d.mode.Some? {
      RouteAcceptsExactly(s.authority, cfg.maxFutureSkewNs, c, now,
        s.authority.active.Some? && SafetyPermits(cfg, s, now, s.authority.active.value.mode));
      WriteCandidateMoves(s, c, d, now, ok);
    }
  }

  lemma WriteCandidateMoves(s: Sink, c: MotionCandidate, d: RoutedCommand, now: nat, ok: bool)
    requires d.mode.Some?
    ensures var step := WriteCandidate(s, c, d, now, ok);
      && step.sink.authority == s.authority && step.sink.seen == s.seen
      && (step.outcome.Failed? ==> step.sink.log == s.log)
      && (!step.outcome.Failed? ==>
            && step.outcome.Result? && step.outcome.result.accepted == d.accepted
            && step.outcome.result.mode == d.mode && step.outcome.result.effectiveAction == d.effectiveAction
            && step.outcome.result.commandSeq == Some(s.nextSequence)
            && step.sink.log == s.log + [Command(s, d.mode.value, d.effectiveAction, now, d.reason, d.accepted)])
  {
    var w := WriteCommand(s, d.mode.value, d.effectiveAction, now, d.reason, d.accepted, ok);
    CandidateBookkeeping(s, w.sink, c, d, now);
  }

  /** Every call either accepts no command, or is the submission of the one it
      logs. */
  lemma CallMoves(cfg: Config, s: Sink, call: Call, ok: bool)
    requires Inv(s)
    ensures var step := Perform(cfg, s, call, ok);
      if call.CallSubmit? && step.outcome.Result? && step.outcome.result.accepted
      then LogsAccepted(s, step.sink, call.candidate, step.outcome.result)
      else NoAcceptance(s, step.sink)
  {
    if IsRequest(call) {
      RequestCallMoves(cfg, s, call, ok);
    } else if call.CallSubmit? {
      SubmitMoves(cfg, s, call.candidate, call.now, ok);
    } else {
      OtherCallMoves(cfg, s, call, ok);
    }
  }

  lemma RequestCallMoves(cfg: Config, s: Sink, call: Call, ok: bool)
    requires Inv(s) && IsRequest(call)
    ensures NoAcceptance(s, Perform(cfg, s, call, ok).sink)
  {
    match call
    case CallHandoff(b, now) => HandoffMoves(s, b, now, ok);
    case CallStop(now) => StopMoves(s, now, None, ok);
    case CallSourceStop(b, g, now) => SourceStopMoves(s, b, g, now, ok);
    case CallDisarm(now) => DisarmMoves(s, now, ok);
  }

  lemma OtherCallMoves(cfg: Config, s: Sink, call: Call, ok: bool)
    requires Inv(s) && !IsRequest(call) && !call.CallSubmit?
    ensures NoAcceptance(s, Perform(cfg, s, call, ok).sink)
  {
    match call
    case CallInitialize(f) =>
    case CallObserve(f) => ObserveMoves(cfg, s, f, ok);
    case CallInvalidate(now, alive) => InvalidateMoves(cfg, s, now, alive, ok);
    case CallTick(now) => TickMoves(cfg, s, now, ok);
  }

  /** Apart from initialization, nothing makes the sink operational again. */
  lemma NeverRearmed(cfg: Config, s: Sink, call: Call, ok: bool)
    requires Inv(s) && !Operational(s) && !call.CallInitialize?
    ensures s.synchronized ==> OnlyRowsChange(s, Perform(cfg, s, call, ok).sink)
    ensures !s.synchronized ==> Perform(cfg, s, call, ok).sink == s
  {
    if s.synchronized {
      DisarmIsFinal(cfg, s, call, ok);
    }
  }
}
