/** Rows the sender makes up when telemetry is lost (edge_runtime/resident_sink.py,
    invalidate_telemetry): they repeat the echo fields of the row before them. */
module InvalidRows {
  import opened Wrappers
  import opened ResidentMotion
  import opened ResidentCommands
  import opened ResidentSink
  import ResidentCore
  import opened HandoffInvariant
  import opened SinkPreservation
  import opened SinkTheorems

  /** The sink once a row became the current one. */
  function Current(s: Sink, f: Telemetry): Sink { Recorded(s, f).(telemetry := Some(f)) }

  /** An invalidated row acknowledges a zero exactly if that zero is a terminal one
      and the row before it matched already; a target zero it never acknowledges. */
  lemma InvalidRowMatchesIff(cfg: Config, s: Sink, previous: Telemetry, now: nat, alive: bool)
    requires s.pendingAck.Some?
    ensures var p := s.pendingAck.value; var row := InvalidRow(previous, now, alive);
      AckMatches(cfg, Current(s, row), p, row) <==>
      p.purpose.TerminalSource? && AckMatches(cfg, Current(s, previous), p, previous)
  {}

  // ---------- it does not happen to a causal run ----------

  /** The row does not echo the number of a command not yet written. */
  predicate NotAhead(next: Sequence, f: Telemetry) { CommandLive(f) ==> f.rxSeq != next }

  /** Echo causality, for written commands and for the next one: no row handed in
      runs ahead of the commands, nor back behind the time of one it echoes.
      Nothing is asked of rows the sink makes up or ignores. */
  ghost predicate Causal(s: Sink, call: Call) {
    && (s.telemetry.Some? ==> NotAhead(s.nextSequence, s.telemetry.value))
    && (call.CallObserve? && !Regresses(s, call.frame) ==>
          NotAhead(s.nextSequence, call.frame) && EchoCausal(s, call.frame))
  }

  predicate EchoesPending(p: PendingAck, f: Telemetry) {
    f.rxSeq == p.commandSeq && CommandLive(f) && f.mode == Some(p.mode) && f.action == ZERO_ACTION
  }

  /** The current row does not echo the terminal zero the sink waits for. */
  predicate Unmatched(s: Sink) {
    Operational(s) && s.pendingAck.Some? && s.pendingAck.value.purpose.TerminalSource? ==>
      s.telemetry.Some? && !EchoesPending(s.pendingAck.value, s.telemetry.value)
  }

  /** What a call may do to the awaited zero: keep it, drop it, or await one that
      carried the next number. */
  predicate PendingMove(s: Sink, t: Sink) {
    Operational(t) ==>
      && Operational(s) && t.telemetry == s.telemetry
      && (t.pendingAck.None? || t.pendingAck == s.pendingAck || t.pendingAck.value.commandSeq == s.nextSequence)
  }

  lemma MoveKeepsUnmatched(s: Sink, t: Sink)
    requires Unmatched(s) && PendingMove(s, t) && s.telemetry.Some? && NotAhead(s.nextSequence, s.telemetry.value)
    ensures Unmatched(t)
  {}

  lemma StopPends(s: Sink, now: nat, reason: Option<Reason>, ok: bool)
    requires Operational(s)
    ensures PendingMove(s, StopAndZero(s, now, reason, ok).sink)
  {}

  lemma HandoffPends(s: Sink, binding: PolicyBinding, now: nat, ok: bool)
    ensures PendingMove(s, RequestHandoff(s, binding, now, ok).sink)
  {}

  lemma SubmitPends(cfg: Config, s: Sink, c: MotionCandidate, now: nat, ok: bool)
    ensures PendingMove(s, SubmitCandidate(cfg, s, c, now, ok).sink)
  {
    if Operational(s) { StopPends(s, now, Some(SafetyRejected), ok); }
  }

  lemma TickPends(cfg: Config, s: Sink, now: nat, ok: bool)
    ensures PendingMove(s, Tick(cfg, s, now, ok).sink)
  {
    if Operational(s) {
      StopPends(s, now, Some(CandidateLeaseExpired), ok);
      StopPends(s, now, Some(StateWatchdog), ok);
      StopPends(s.(lease := None), now, Some(StateWatchdog), ok);
    }
  }

  /** What the sink knows about the zero it awaits when a row arrives: a row that
      matches it was not received before it was written. */
  predicate AwaitsFor(cfg: Config, h: Sink, f: Telemetry) {
    && Operational(h) && WellShaped(h.authority) && SinkAgreesWithAuthority(h) && h.nextSequence == Expected(h)
    && h.telemetry == Some(f) && NotAhead(h.nextSequence, f)
    && (h.pendingAck.Some? && AckMatches(cfg, h, h.pendingAck.value, f) ==> h.log != [] && Last(h).at <= f.receivedNs)
  }

  /** A row that matched moves on; the others leave the awaited zero alone. */
  lemma AckLeavesUnmatched(cfg: Config, h: Sink, f: Telemetry, ok: bool)
    requires AwaitsFor(cfg, h, f)
    ensures var t := AcknowledgePhase(cfg, h, f, ok).sink;
      Unmatched(t) && (Operational(t) ==> t.telemetry == Some(f) && NotAhead(t.nextSequence, f))
  {}

  lemma SafetyPends(cfg: Config, s: Sink, f: Telemetry, ok: bool)
    requires Operational(s)
    ensures PendingMove(s, SafetyPhase(cfg, s, f, ok).sink)
  {
    StopPends(s, f.receivedNs, Some(UnsafeTelemetry), ok);
  }

  lemma FirstNonzeroPends(s: Sink, f: Telemetry)
    ensures var t := FirstNonzeroPhase(s, f).sink;
      && t.pendingAck == s.pendingAck && t.telemetry == s.telemetry && t.nextSequence == s.nextSequence
      && Operational(t) == Operational(s)
  {}

  lemma RestLeavesUnmatched(cfg: Config, s: Sink, f: Telemetry, ok: bool)
    requires Operational(s) && Unmatched(s) && s.telemetry == Some(f) && NotAhead(s.nextSequence, f)
    ensures Unmatched(FirstNonzeroPhase(s, f).sink)
    ensures Unmatched(SafetyPhase(cfg, FirstNonzeroPhase(s, f).sink, f, ok).sink)
  {
    var first := FirstNonzeroPhase(s, f).sink;
    FirstNonzeroPends(s, f);
    SafetyPends(cfg, first, f, ok);
    MoveKeepsUnmatched(first, SafetyPhase(cfg, first, f, ok).sink);
  }

  lemma RowLeavesUnmatched(cfg: Config, h: Sink, f: Telemetry, ok: bool)
    requires AwaitsFor(cfg, h, f)
    ensures Unmatched(ProcessRow(cfg, h, f, ok).sink)
  {
    AckLeavesUnmatched(cfg, h, f, ok);
    var ack := AcknowledgePhase(cfg, h, f, ok);
    if !ack.outcome.Failed? {
      AckStaysOperational(cfg, h, f, ok);
      RestLeavesUnmatched(cfg, ack.sink, f, ok);
    }
  }

  lemma CausalRowAwaits(cfg: Config, s: Sink, f: Telemetry)
    requires Inv(s) && Operational(s) && EchoCausal(s, f) && NotAhead(s.nextSequence, f)
    ensures AwaitsFor(cfg, Current(s, f), f)
  {
    if s.log != [] && s.log[|s.log| - 1].commandSeq == f.rxSeq {
      assert s.log[|s.log| - 1].at <= f.receivedNs;
    }
  }

  /** The invalidated row does not match, so there is no time to compare. */
  lemma InvalidRowAwaits(cfg: Config, s: Sink, now: nat, alive: bool)
    requires Inv(s) && Operational(s) && Unmatched(s) && NotAhead(s.nextSequence, s.telemetry.value)
    ensures var row := InvalidRow(s.telemetry.value, now, alive);
      && AwaitsFor(cfg, Current(s, row), row)
      && (s.pendingAck.Some? ==> !AckMatches(cfg, Current(s, row), s.pendingAck.value, row))
  {}

  lemma ObserveLeavesUnmatched(cfg: Config, s: Sink, f: Telemetry, ok: bool)
    requires Inv(s) && s.synchronized && Unmatched(s)
    requires Operational(s) && !Regresses(s, f) ==> AwaitsFor(cfg, Current(s, f), f)
    ensures Unmatched(ObserveLocked(cfg, s, f, ok).sink)
  {
    if Operational(s) && !Regresses(s, f) {
      RowLeavesUnmatched(cfg, Current(s, f), f, ok);
    }
  }

  lemma NonRowPends(cfg: Config, s: Sink, call: Call, ok: bool)
    requires !call.CallInitialize? && !call.CallObserve? && !call.CallInvalidate?
    ensures PendingMove(s, Perform(cfg, s, call, ok).sink)
  {
    match call
    case CallHandoff(b, now) => HandoffPends(s, b, now, ok);
    case CallStop(now) => if Operational(s) { StopPends(s, now, None, ok); }
    case CallSourceStop(b, g, now) => if Operational(s) { StopPends(s, now, None, ok); }
    case CallSubmit(c, now) => SubmitPends(cfg, s, c, now, ok);
    case CallTick(now) => TickPends(cfg, s, now, ok);
    case CallDisarm(now) =>
  }

  lemma CallLeavesUnmatched(cfg: Config, s: Sink, call: Call, ok: bool)
    requires Inv(s) && Unmatched(s) && Causal(s, call)
    ensures Unmatched(Perform(cfg, s, call, ok).sink)
  {
    if call.CallInitialize? {
    } else if !s.synchronized {
      assert !Operational(Perform(cfg, s, call, ok).sink);
    } else if call.CallObserve? {
      if Operational(s) && !Regresses(s, call.frame) { CausalRowAwaits(cfg, s, call.frame); }
      ObserveLeavesUnmatched(cfg, s, call.frame, ok);
    } else if call.CallInvalidate? {
      if Operational(s) { InvalidRowAwaits(cfg, s, call.now, call.alive); }
      ObserveLeavesUnmatched(cfg, s, InvalidRow(s.telemetry.value, call.now, call.alive), ok);
    } else {
      NonRowPends(cfg, s, call, ok);
      MoveKeepsUnmatched(s, Perform(cfg, s, call, ok).sink);
    }
  }

  ghost predicate CausalRun(cfg: Config, calls: seq<TimedCall>) {
    forall k | 0 <= k < |calls| :: Causal(Run(cfg, calls[..k]), calls[k].call)
  }

  lemma {:induction false} CausalRunIsUnmatched(cfg: Config, calls: seq<TimedCall>)
    requires CausalRun(cfg, calls)
    ensures Unmatched(Run(cfg, calls))
  {
    if calls != [] {
      var n := |calls| - 1;
      var before := calls[..n];
      assert forall k | 0 <= k < n :: before[k] == calls[k] && before[..k] == calls[..k];
      CausalRunIsUnmatched(cfg, before);
      EveryRunKeepsInvariant(cfg, before);
      assert Causal(Run(cfg, calls[..n]), calls[n].call);
      CallLeavesUnmatched(cfg, Run(cfg, before), calls[n].call, calls[n].ok);
    }
  }

  /** Over every causal run an invalidated row acknowledges nothing. */
  lemma {:induction false} InvalidRowNeverAcknowledges(cfg: Config, calls: seq<TimedCall>, s: Sink, now: nat, alive: bool)
    requires s == Run(cfg, calls) && CausalRun(cfg, calls + [TimedCall(CallInvalidate(now, alive), true)])
    requires Operational(s)
    ensures s.telemetry.Some? && (s.pendingAck.Some? ==>
              var row := InvalidRow(s.telemetry.value, now, alive);
              !AckMatches(cfg, Current(s, row), s.pendingAck.value, row))
  {
    var last := TimedCall(CallInvalidate(now, alive), true);
    var all := calls + [last];
    assert all[..|calls|] == calls && all[|calls|] == last;
    assert forall k | 0 <= k < |calls| :: all[k] == calls[k] && all[..k] == calls[..k];
    assert Causal(Run(cfg, all[..|calls|]), all[|calls|].call);
    EveryRunKeepsInvariant(cfg, calls);
    CausalRunIsUnmatched(cfg, calls);
    InvalidRowAwaits(cfg, s, now, alive);
  }

  // ---------- it can happen to another ----------

  /** A safe row for RL that echoes a number, or nothing. */
  function Row(at: nat, echoed: Sequence, live: bool): Telemetry {
    Telemetry(at, echoed, live, false, Some(VelocityReference), ZERO_ACTION, true, false, true, true, 0)
  }

  lemma RunExtends(cfg: Config, calls: seq<TimedCall>, call: Call)
    ensures Run(cfg, calls + [TimedCall(call, true)]) == Perform(cfg, Run(cfg, calls), call, true).sink
  {
    assert (calls + [TimedCall(call, true)])[..|calls|] == calls;
  }

  /** RL claims the machine, and then a row echoes command 1, which is not written. */
  predicate Ahead(s: Sink) {
    && Operational(s) && s.nextSequence == 1 && s.telemetry == Some(Row(2, 1, true))
    && s.authority == AuthorityState(1, Active, Some(ResidentCore.RL_BINDING), None, None, None)
    && s.pendingAck.None? && s.measurement.None? && s.firstNonzero.None?
  }

  lemma ClaimedRun(cfg: Config) returns (calls: seq<TimedCall>)
    ensures var s := Run(cfg, calls);
      && Operational(s) && s.nextSequence == 1 && s.telemetry == Some(Row(0, 0, false))
      && s.authority == HandoffRequested(INITIAL_AUTHORITY, ResidentCore.RL_BINDING, 0)
      && s.pendingAck == Some(PendingAck(1, VelocityReference, TargetClaim, 0))
      && s.measurement.None? && s.firstNonzero.None?
  {
    calls := [TimedCall(CallInitialize(Row(0, 0, false)), true)];
    RunExtends(cfg, [], CallInitialize(Row(0, 0, false)));
    assert [] + calls == calls;
    RunExtends(cfg, calls, CallHandoff(ResidentCore.RL_BINDING, 0));
    calls := calls + [TimedCall(CallHandoff(ResidentCore.RL_BINDING, 0), true)];
  }

  lemma ActiveRun(cfg: Config) returns (calls: seq<TimedCall>)
    ensures var s := Run(cfg, calls);
      && Operational(s) && s.nextSequence == 1 && s.telemetry == Some(Row(1, 0, true))
      && s.authority == AuthorityState(1, Active, Some(ResidentCore.RL_BINDING), None, None, None)
      && s.pendingAck.None? && s.measurement.None? && s.firstNonzero.None?
  {
    calls := ClaimedRun(cfg);
    RunExtends(cfg, calls, CallObserve(Row(1, 0, true)));
    calls := calls + [TimedCall(CallObserve(Row(1, 0, true)), true)];
  }

  lemma AheadRun(cfg: Config) returns (calls: seq<TimedCall>)
    ensures Ahead(Run(cfg, calls))
  {
    calls := ActiveRun(cfg);
    RunExtends(cfg, calls, CallObserve(Row(2, 1, true)));
    calls := calls + [TimedCall(CallObserve(Row(2, 1, true)), true)];
  }

  lemma StoppedRun(cfg: Config, before: seq<TimedCall>) returns (calls: seq<TimedCall>)
    requires Ahead(Run(cfg, before))
    ensures var s := Run(cfg, calls);
      && Operational(s) && s.telemetry == Some(Row(2, 1, true))
      && s.authority == StopRequested(AuthorityState(1, Active, Some(ResidentCore.RL_BINDING), None, None, None), 3)
      && s.pendingAck == Some(PendingAck(2, VelocityReference, TerminalSource, 1))
      && s.measurement.None? && s.firstNonzero.None?
  {
    RunExtends(cfg, before, CallStop(3));
    calls := before + [TimedCall(CallStop(3), true)];
  }

  /** Without causality: a row that echoes a command before it is written lets the
      row made up after it acknowledge the terminal zero, on a machine that never
      confirmed it. */
  lemma InvalidRowCanAcknowledge(cfg: Config) returns (calls: seq<TimedCall>)
    ensures var s := Run(cfg, calls); var step := InvalidateTelemetry(cfg, s, 4, true, true);
      && Operational(s) && s.authority.phase.TerminalZeroPending? && s.telemetry == Some(Row(2, 1, true))
      && step.outcome == Done && step.sink.authority.phase.Idle? && step.sink.log == s.log
  {
    calls := AheadRun(cfg);
    calls := StoppedRun(cfg, calls);
  }
}
