/** Every call of the motion owner keeps its invariant. */
module CorePreservation {
  import opened Wrappers
  import opened ResidentMotion
  import opened ResidentSink
  import opened ResidentIngress
  import opened ResidentCore
  import opened HandoffInvariant
  import opened SinkTheorems
  import opened SinkEffects
  import opened CoreInvariant

  lemma InitializeKeepsCore(cfg: CoreConfig, c: Core, f: Telemetry)
    requires CoreInv(cfg, c)
    ensures CoreInv(cfg, CoreInitialize(c, f).core)
  {}

  lemma InvalidateKeepsCore(cfg: CoreConfig, c: Core, now: nat, alive: bool, ok: bool)
    requires CoreInv(cfg, c)
    ensures CoreInv(cfg, CoreInvalidate(cfg, c, now, alive, ok).core)
  {
    InvalidateIsQuiet(cfg.sink, c.sink, now, alive, ok);
    QuietMoveKeeps(cfg, c, InvalidateTelemetry(cfg.sink, c.sink, now, alive, ok).sink);
  }

  // ---------- rows ----------

  /** The row was recorded after the last command. */
  predicate JustSeen(s: Sink, f: Telemetry) {
    Seen(f, |s.log|) in s.seen
  }

  lemma NotingKeepsCore(cfg: CoreConfig, c: Core, f: Telemetry)
    requires CoreInv(cfg, c) && (c.disarmResult.Some? ==> JustSeen(c.sink, f))
    ensures CoreInv(cfg, c.(zeroAcknowledged :=
      c.zeroAcknowledged || (c.disarmResult.Some? && TerminalZeroEchoed(c.disarmResult.value, f))))
  {}

  /** The echo of the last ACT step opens the next generation for RL, and only
      then is the segment complete. */
  lemma CompletionKeepsCore(cfg: CoreConfig, c: Core, f: Telemetry, ok: bool)
    requires CoreInv(cfg, c)
    requires SegmentEchoed(c.segment, f) && ActIsActive(c.sink) && c.segment.generation == Some(c.sink.authority.generation)
    ensures var claim := BeginActivation(c.sink, c.rl, RL_BINDING, f.receivedNs, ok);
      var d := c.(sink := claim.sink, rl := claim.adapter);
      && CoreInv(cfg, d)
      && (!claim.outcome.Failed? ==> CoreInv(cfg, d.(segment := c.segment.(complete := true, handoffDue := false))))
  {
    var claim := BeginActivation(c.sink, c.rl, RL_BINDING, f.receivedNs, ok);
    ActivationKeeps(cfg.sink, c.sink, c.rl, RL_BINDING, f.receivedNs, ok);
    QuietMoveKeeps(cfg, c, claim.sink);
  }

  lemma AfterObserveKeepsCore(cfg: CoreConfig, c: Core, f: Telemetry, ok: bool)
    requires CoreInv(cfg, c) && (c.disarmResult.Some? ==> JustSeen(c.sink, f))
    ensures CoreInv(cfg, AfterObserve(c, f, ok).core)
  {
    var noted := c.(zeroAcknowledged :=
      c.zeroAcknowledged || (c.disarmResult.Some? && TerminalZeroEchoed(c.disarmResult.value, f)));
    NotingKeepsCore(cfg, c, f);
    if SegmentEchoed(c.segment, f) && ActIsActive(c.sink) && c.segment.generation == Some(c.sink.authority.generation) {
      CompletionKeepsCore(cfg, noted, f, ok);
    }
  }

  lemma ObserveKeepsCore(cfg: CoreConfig, c: Core, f: Telemetry, ok: bool)
    requires CoreInv(cfg, c)
    ensures CoreInv(cfg, CoreObserve(cfg, c, f, ok).core)
  {
    var step := ObserveTelemetry(cfg.sink, c.sink, f, ok);
    ObserveIsQuiet(cfg.sink, c.sink, f, ok);
    QuietMoveKeeps(cfg, c, step.sink);
    if !step.outcome.Failed? {
      if c.disarmResult.Some? {
        ObserveMoves(cfg.sink, c.sink, f, ok);
        assert step.sink.seen[|c.sink.seen|] == Seen(f, |c.sink.log|);
      }
      AfterObserveKeepsCore(cfg, c.(sink := step.sink), f, ok);
    }
  }

  // ---------- claims ----------

  lemma ActivateRlKeepsCore(cfg: CoreConfig, c: Core, now: nat, ok: bool)
    requires CoreInv(cfg, c)
    ensures CoreInv(cfg, ActivateRl(c, now, ok).core)
  {
    ActivationKeeps(cfg.sink, c.sink, c.rl, RL_BINDING, now, ok);
    QuietMoveKeeps(cfg, c, BeginActivation(c.sink, c.rl, RL_BINDING, now, ok).sink);
  }

  lemma ActivateActKeepsCore(cfg: CoreConfig, c: Core, maxSteps: Option<int>, now: nat, ok: bool)
    requires CoreInv(cfg, c)
    ensures CoreInv(cfg, ActivateAct(c, maxSteps, now, ok).core)
  {
    var claim := BeginActivation(c.sink, c.act, ACT_BINDING, now, ok);
    ActivationKeeps(cfg.sink, c.sink, c.act, ACT_BINDING, now, ok);
    QuietMoveKeeps(cfg, c, claim.sink);
    if BudgetAllowed(maxSteps) && claim.outcome.Generation? && c.segment.generation != Some(claim.outcome.generation) {
      FreshGenerationIsUncounted(c.sink, claim.sink, claim.outcome.generation);
    }
  }

  lemma FreshGenerationIsUncounted(s: Sink, t: Sink, generation: nat)
    requires Inv(s) && NoAcceptance(s, t) && generation > s.authority.generation
    ensures AcceptedAt(t.log, generation) == 0
  {
    NothingAcceptedYet(s.log, generation);
    CountKept(s, t, generation);
  }

  // ---------- accepted commands ----------

  lemma CountAppended(log: seq<Write>, more: seq<Write>, generation: nat)
    requires |more| == |log| + 1 && more[..|log|] == log
    ensures AcceptedAt(more, generation) ==
            AcceptedAt(log, generation) + if more[|log|].accepted && more[|log|].generation == generation then 1 else 0
  {}

  lemma AdvanceKeepsSegment(cfg: CoreConfig, s: Sink, t: Sink, g: Segment, c: MotionCandidate, r: WriteResult,
                            chunk: Option<seq<Action>>)
    requires SegmentOk(cfg, s, g) && !g.handoffDue && g.generation == Some(s.authority.generation)
    requires Operational(s) && LogsAccepted(s, t, c, r)
    ensures SegmentOk(cfg, t, Advance(cfg, g, r.commandSeq.value, r.effectiveAction, chunk))
  {
    CountAppended(s.log, t.log, g.generation.value);
  }

  lemma AcceptedStepKeepsCore(cfg: CoreConfig, c: Core, t: Sink, candidate: MotionCandidate, r: WriteResult)
    requires CoreInv(cfg, c) && Inv(t) && Operational(c.sink) && LogsAccepted(c.sink, t, candidate, r)
    requires !c.segment.handoffDue && c.act.generation == Some(candidate.generation)
    ensures CoreInv(cfg, c.(sink := t, segment := Advance(cfg, c.segment, r.commandSeq.value, r.effectiveAction,
                                                          candidate.actionChunk)))
  {
    AdvanceKeepsSegment(cfg, c.sink, t, c.segment, candidate, r, candidate.actionChunk);
  }

  lemma SubmitActKeepsCore(cfg: CoreConfig, c: Core, p: CandidatePacket, now: nat, ok: bool)
    requires CoreInv(cfg, c)
    ensures CoreInv(cfg, SubmitAct(cfg, c, p, now, ok).core)
  {
    if !c.segment.handoffDue {
      SendCandidateKeeps(cfg.sink, c.sink, c.act, ACT_BINDING, p, now, ok);
      AfterSendKeepsCore(cfg, c, p, SendCandidate(cfg.sink, c.sink, c.act, ACT_BINDING, p, now, ok));
    }
  }

  lemma AfterSendKeepsCore(cfg: CoreConfig, c: Core, p: CandidatePacket, sent: Ingress)
    requires CoreInv(cfg, c) && !c.segment.handoffDue && Inv(sent.sink)
    requires sent.adapter == c.act || (c.sink.synchronized && sent.adapter.generation.None?)
    requires if sent.outcome.Result? && sent.outcome.result.accepted then
               && sent.adapter == c.act && p.CandidatePacket? && c.act.generation == Some(p.candidate.generation)
               && Operational(c.sink) && LogsAccepted(c.sink, sent.sink, p.candidate, sent.outcome.result)
             else QuietMove(c.sink, sent.sink)
    ensures CoreInv(cfg, AfterSend(cfg, c, p, sent).core)
  {
    if sent.outcome.Result? && sent.outcome.result.accepted {
      AcceptedStepKeepsCore(cfg, c, sent.sink, p.candidate, sent.outcome.result);
    } else {
      QuietMoveKeeps(cfg, c, sent.sink);
    }
  }

  lemma RlAcceptanceKeepsCore(cfg: CoreConfig, c: Core, t: Sink)
    requires CoreInv(cfg, c) && RlAccepts(c.sink, t) && Inv(t)
    ensures CoreInv(cfg, c.(sink := t))
  {}

  lemma SendRlKeepsCore(cfg: CoreConfig, c: Core, p: VelocityPacket, now: nat, wallMs: nat, ok: bool)
    requires CoreInv(cfg, c)
    ensures CoreInv(cfg, SendRl(cfg, c, p, now, wallMs, ok).core)
  {
    var sent := SendVelocity(cfg.sink, c.sink, c.rl, RL_BINDING, p, now, wallMs, ok);
    SendVelocityKeeps(cfg.sink, c.sink, c.rl, p, now, wallMs, ok);
    if sent.outcome.Result? && sent.outcome.result.accepted {
      RlAcceptanceKeepsCore(cfg, c, sent.sink);
    } else {
      QuietMoveKeeps(cfg, c, sent.sink);
    }
    AdapterChangeKeepsCore(cfg, c.(sink := sent.sink), sent.adapter);
  }

  lemma AdapterChangeKeepsCore(cfg: CoreConfig, c: Core, a: AdapterState)
    requires CoreInv(cfg, c) && (a.generation == c.rl.generation || a.generation.None?)
    requires !c.sink.synchronized ==> a == INACTIVE_ADAPTER
    ensures CoreInv(cfg, c.(rl := a))
  {}

  // ---------- stops ----------

  lemma StopRlKeepsCore(cfg: CoreConfig, c: Core, now: nat, ok: bool)
    requires CoreInv(cfg, c)
    ensures CoreInv(cfg, StopRl(c, now, ok).core)
  {
    if c.rl.generation.Some? {
      SourceStopIsQuiet(cfg.sink, c.sink, RL_BINDING, c.rl.generation.value, now, ok);
      QuietMoveKeeps(cfg, c, RequestSourceStop(c.sink, RL_BINDING, c.rl.generation.value, now, ok).sink);
    }
  }

  lemma DisconnectKeepsCore(cfg: CoreConfig, c: Core, now: nat, ok: bool)
    requires CoreInv(cfg, c)
    ensures CoreInv(cfg, Disconnect(c, now, ok).core)
  {
    if Operational(c.sink) && c.segment.generation.Some? {
      SourceStopIsQuiet(cfg.sink, c.sink, ACT_BINDING, c.segment.generation.value, now, ok);
      SourceStopMoves(c.sink, ACT_BINDING, c.segment.generation.value, now, ok);
      QuietMoveKeeps(cfg, c, RequestSourceStop(c.sink, ACT_BINDING, c.segment.generation.value, now, ok).sink);
    }
  }

  lemma DisarmKeepsCore(cfg: CoreConfig, c: Core, now: nat, ok: bool)
    requires CoreInv(cfg, c)
    ensures CoreInv(cfg, CoreDisarm(c, now, ok).core)
  {
    if c.disarmResult.None? {
      var step := TerminallyDisarm(c.sink, now, ok);
      DisarmIsQuiet(cfg.sink, c.sink, now, ok);
      QuietMoveKeeps(cfg, c, step.sink);
      DisarmResultIsSound(c.sink, now, ok);
      UndueKeepsCore(cfg, c.(sink := step.sink));
      if step.outcome.Result? {
        ResultKeepsCore(cfg, c.(sink := step.sink, deadlineNs := None, segment := c.segment.(handoffDue := false)),
                        step.outcome.result);
      }
    }
  }

  /** An owner that is not operational owes no completion. */
  lemma UndueKeepsCore(cfg: CoreConfig, c: Core)
    requires CoreInv(cfg, c) && !Operational(c.sink)
    ensures CoreInv(cfg, c.(deadlineNs := None, segment := c.segment.(handoffDue := false)))
  {}

  /** The result of a disarm is stored with what it proves. */
  lemma ResultKeepsCore(cfg: CoreConfig, c: Core, r: WriteResult)
    requires CoreInv(cfg, c) && c.disarmResult.None? && SoundResult(c.sink, r)
    ensures CoreInv(cfg, c.(disarmResult := Some(r),
                            zeroAcknowledged := !r.writePerformed && r.reason.TerminalDisarm? && r.commandSeq.None? &&
                                                r.mode.None? && r.effectiveAction == ZERO_ACTION))
  {}

  ghost predicate SoundResult(s: Sink, r: WriteResult) {
    && s.synchronized && s.disarmed
    && (!r.writePerformed ==> r.commandSeq.None? && r.mode.None? && r.effectiveAction == ZERO_ACTION)
    && (r.writePerformed ==>
          && !s.faulted && s.log != [] && !Nonzero(Last(s)) && r.effectiveAction == ZERO_ACTION
          && r.commandSeq == Some(Last(s).commandSeq) && r.mode == Some(Last(s).mode))
    && (!r.writePerformed && r.reason.TerminalDisarm? ==> AllMotionReleased(s) && !s.faulted)
  }

  /** What the stored result of terminal_disarm may claim from the start. */
  lemma DisarmResultIsSound(s: Sink, now: nat, ok: bool)
    requires Inv(s)
    ensures var step := TerminallyDisarm(s, now, ok);
      && (!s.synchronized ==> step.outcome.Failed? && step.sink == s)
      && !Operational(step.sink) && (step.outcome.Result? ==> SoundResult(step.sink, step.outcome.result))
  {}

  lemma RenewKeepsCore(cfg: CoreConfig, c: Core, leaseMs: int, now: nat, ok: bool)
    requires CoreInv(cfg, c)
    ensures CoreInv(cfg, RenewLease(c, leaseMs, now, ok).core)
  {
    DisarmKeepsCore(cfg, c, now, ok);
  }

  lemma TickKeepsCore(cfg: CoreConfig, c: Core, now: nat, ok: bool)
    requires CoreInv(cfg, c)
    ensures CoreInv(cfg, CoreTick(cfg, c, now, ok).core)
  {
    if c.deadlineNs.Some? && now >= c.deadlineNs.value {
      DisarmKeepsCore(cfg, c.(deadlineNs := None), now, ok);
    } else {
      TickIsQuiet(cfg.sink, c.sink, now, ok);
      QuietMoveKeeps(cfg, c, Tick(cfg.sink, c.sink, now, ok).sink);
    }
  }

  /** The calls of the two policies and their workers. */
  predicate IsPolicyCall(call: CoreCall) { IsClaim(call) || IsSubmission(call) || IsRelease(call) }

  predicate IsClaim(call: CoreCall) { call.CoreCallActivateRl? || call.CoreCallActivateAct? }

  predicate IsSubmission(call: CoreCall) { call.CoreCallSubmitAct? || call.CoreCallSendRl? }

  predicate IsRelease(call: CoreCall) { call.CoreCallStopRl? || call.CoreCallDisconnect? }

  predicate IsRowCall(call: CoreCall) {
    call.CoreCallInitialize? || call.CoreCallObserve? || call.CoreCallInvalidate?
  }

  lemma ClaimKeeps(cfg: CoreConfig, c: Core, call: CoreCall, ok: bool)
    requires CoreInv(cfg, c) && IsClaim(call)
    ensures CoreInv(cfg, PerformCore(cfg, c, call, ok).core)
  {
    match call
    case CoreCallActivateRl(now) => ActivateRlKeepsCore(cfg, c, now, ok);
    case CoreCallActivateAct(maxSteps, now) => ActivateActKeepsCore(cfg, c, maxSteps, now, ok);
  }

  lemma SubmissionKeeps(cfg: CoreConfig, c: Core, call: CoreCall, ok: bool)
    requires CoreInv(cfg, c) && IsSubmission(call)
    ensures CoreInv(cfg, PerformCore(cfg, c, call, ok).core)
  {
    match call
    case CoreCallSubmitAct(p, now) => SubmitActKeepsCore(cfg, c, p, now, ok);
    case CoreCallSendRl(p, now, wallMs) => SendRlKeepsCore(cfg, c, p, now, wallMs, ok);
  }

  lemma ReleaseKeeps(cfg: CoreConfig, c: Core, call: CoreCall, ok: bool)
    requires CoreInv(cfg, c) && IsRelease(call)
    ensures CoreInv(cfg, PerformCore(cfg, c, call, ok).core)
  {
    match call
    case CoreCallStopRl(now) => StopRlKeepsCore(cfg, c, now, ok);
    case CoreCallDisconnect(now) => DisconnectKeepsCore(cfg, c, now, ok);
  }

  lemma RowCallKeeps(cfg: CoreConfig, c: Core, call: CoreCall, ok: bool)
    requires CoreInv(cfg, c) && IsRowCall(call)
    ensures CoreInv(cfg, PerformCore(cfg, c, call, ok).core)
  {
    match call
    case CoreCallInitialize(f) => InitializeKeepsCore(cfg, c, f);
    case CoreCallObserve(f) => ObserveKeepsCore(cfg, c, f, ok);
    case CoreCallInvalidate(now, alive) => InvalidateKeepsCore(cfg, c, now, alive, ok);
  }

  lemma OwnerCallKeeps(cfg: CoreConfig, c: Core, call: CoreCall, ok: bool)
    requires CoreInv(cfg, c) && !IsPolicyCall(call) && !IsRowCall(call)
    ensures CoreInv(cfg, PerformCore(cfg, c, call, ok).core)
  {
    match call
    case CoreCallRenew(leaseMs, now) => RenewKeepsCore(cfg, c, leaseMs, now, ok);
    case CoreCallTick(now) => TickKeepsCore(cfg, c, now, ok);
    case CoreCallDisarm(now) => DisarmKeepsCore(cfg, c, now, ok);
  }

  lemma PerformCoreKeeps(cfg: CoreConfig, c: Core, call: CoreCall, ok: bool)
    requires CoreInv(cfg, c)
    ensures CoreInv(cfg, PerformCore(cfg, c, call, ok).core)
  {
    if IsClaim(call) {
      ClaimKeeps(cfg, c, call, ok);
    } else if IsSubmission(call) {
      SubmissionKeeps(cfg, c, call, ok);
    } else if IsRelease(call) {
      ReleaseKeeps(cfg, c, call, ok);
    } else if IsRowCall(call) {
      RowCallKeeps(cfg, c, call, ok);
    } else {
      OwnerCallKeeps(cfg, c, call, ok);
    }
  }
}
