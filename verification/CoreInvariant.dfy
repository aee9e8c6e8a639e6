/** What every call of the motion owner keeps. */
module CoreInvariant {
  import opened Wrappers
  import opened ResidentMotion
  import opened ResidentSink
  import opened ResidentIngress
  import opened ResidentCore
  import opened HandoffInvariant
  import opened SinkPreservation
  import opened SinkTheorems
  import opened SinkEffects

  /** An adapter never claims a generation it was not given. */
  predicate AdapterOk(s: Sink, a: AdapterState, binding: PolicyBinding) {
    a.generation.Some? ==>
      && a.generation.value <= s.authority.generation
      && (a.generation.value == s.authority.generation ==> Owner(s.authority) == Some(binding))
  }

  /** The segment stopped counting for a reason its count bears out. */
  predicate FinishedFairly(cfg: CoreConfig, g: Segment) {
    && g.reason.Some? && g.maxSteps.Some?
    && match g.reason.value
       case StepBudget => g.completedSteps == g.maxSteps.value
       case DeadzoneChunk => cfg.deadzone.Some? && cfg.earlyMinSteps < g.completedSteps < g.maxSteps.value
  }

  function LastEffective(g: Segment): nat { if g.lastEffectiveStep.None? then 0 else g.lastEffectiveStep.value }

  /** Conservation of the ACT budget. */
  predicate SegmentOk(cfg: CoreConfig, s: Sink, g: Segment) {
    if g.generation.None? then g == NO_SEGMENT
    else
      var n := g.generation.value;
      && n <= s.authority.generation && (n == s.authority.generation ==> Owner(s.authority) == Some(ACT_BINDING))
      && g.completedSteps == AcceptedAt(s.log, n)
      && g.trailingDeadzoneSteps + LastEffective(g) == g.completedSteps
      && (g.maxSteps.Some? ==>
            && 1 <= g.maxSteps.value <= MAX_ACT_SEGMENT_STEPS && g.completedSteps <= g.maxSteps.value
            && (g.reason.None? ==> g.completedSteps < g.maxSteps.value))
      && (g.reason.Some? ==> FinishedFairly(cfg, g))
      && (g.reason.Some? && n == s.authority.generation && Operational(s) ==> g.handoffDue)
      && (g.handoffDue ==> g.reason.Some? && g.finalSeq.Some? && !g.complete)
      && (g.complete ==> g.reason.Some? && n < s.authority.generation)
  }

  /** Some row received after the last command echoed it as a zero. */
  ghost predicate LastZeroEchoed(s: Sink) {
    s.log != [] && exists j :: 0 <= j < |s.seen| && s.seen[j].at == |s.log| && EchoesZero(s.seen[j].frame, Last(s))
  }

  ghost predicate DisarmOk(c: Core) {
    && (c.disarmResult.None? ==> !c.zeroAcknowledged)
    && (c.disarmResult.Some? ==>
          var r := c.disarmResult.value;
          && c.sink.synchronized && c.sink.disarmed
          && (!r.writePerformed && r.reason.TerminalDisarm? ==> c.zeroAcknowledged)
          && (r.writePerformed ==>
                && !c.sink.faulted && c.sink.log != [] && !Nonzero(Last(c.sink)) && r.effectiveAction == ZERO_ACTION
                && r.commandSeq == Some(Last(c.sink).commandSeq) && r.mode == Some(Last(c.sink).mode))
          && (c.zeroAcknowledged ==>
                if r.writePerformed then LastZeroEchoed(c.sink) else AllMotionReleased(c.sink) && !c.sink.faulted))
  }

  ghost predicate CoreInv(cfg: CoreConfig, c: Core) {
    && Inv(c.sink)
    && AdapterOk(c.sink, c.rl, RL_BINDING) && AdapterOk(c.sink, c.act, ACT_BINDING)
    && (c.act.generation.Some? ==> c.segment.generation == c.act.generation)
    && SegmentOk(cfg, c.sink, c.segment)
    && (!c.sink.synchronized ==>
          c.rl == INACTIVE_ADAPTER && c.act == INACTIVE_ADAPTER && c.segment == NO_SEGMENT)
    && DisarmOk(c)
  }

  // ---------- the sink moved without accepting a command ----------

  predicate QuietMove(s: Sink, t: Sink) {
    && NoAcceptance(s, t)
    && (Operational(t) ==> Operational(s))
    && t.synchronized == s.synchronized
    && (s.disarmed && s.synchronized ==> OnlyRowsChange(s, t))
  }

  lemma AdapterKept(s: Sink, t: Sink, a: AdapterState, binding: PolicyBinding)
    requires AdapterOk(s, a, binding) && OwnerKept(s.authority, t.authority)
    ensures AdapterOk(t, a, binding)
  {}

  lemma SegmentKept(cfg: CoreConfig, s: Sink, t: Sink, g: Segment)
    requires SegmentOk(cfg, s, g) && NoAcceptance(s, t) && (Operational(t) ==> Operational(s))
    ensures SegmentOk(cfg, t, g)
  {
    if g.generation.Some? {
      CountKept(s, t, g.generation.value);
    }
  }

  lemma DisarmKept(c: Core, t: Sink)
    requires DisarmOk(c) && (c.disarmResult.Some? ==> OnlyRowsChange(c.sink, t) && c.sink.seen <= t.seen)
    ensures DisarmOk(c.(sink := t))
  {
    if c.disarmResult.Some? && c.zeroAcknowledged {
      if c.disarmResult.value.writePerformed {
        var j :| 0 <= j < |c.sink.seen| && c.sink.seen[j].at == |c.sink.log| && EchoesZero(c.sink.seen[j].frame, Last(c.sink));
        assert t.seen[j] == c.sink.seen[j];
      } else {
        forall a | 0 <= a < |t.log| && Nonzero(t.log[a]) ensures Released(t.log, t.seen, a, |t.log|) {
          ReleasedGrows(c.sink.log, c.sink.seen, [], t.seen[|c.sink.seen|..], a, |t.log|, |t.log|);
          assert t.log + [] == t.log && c.sink.seen + t.seen[|c.sink.seen|..] == t.seen;
        }
      }
    }
  }

  lemma QuietMoveKeeps(cfg: CoreConfig, c: Core, t: Sink)
    requires CoreInv(cfg, c) && QuietMove(c.sink, t) && Inv(t)
    ensures CoreInv(cfg, c.(sink := t))
  {
    AdapterKept(c.sink, t, c.rl, RL_BINDING);
    AdapterKept(c.sink, t, c.act, ACT_BINDING);
    SegmentKept(cfg, c.sink, t, c.segment);
    DisarmKept(c, t);
  }

  // ---------- each sink call, seen from its callers ----------

  lemma SourceStopIsQuiet(cfg: Config, s: Sink, binding: PolicyBinding, generation: nat, now: nat, ok: bool)
    requires Inv(s)
    ensures var t := RequestSourceStop(s, binding, generation, now, ok).sink; QuietMove(s, t) && Inv(t)
  {
    SourceStopMoves(s, binding, generation, now, ok);
    SourceStopCallKeeps(s, binding, generation, now, ok);
    if !Operational(s) { NeverRearmed(cfg, s, CallSourceStop(binding, generation, now), ok); }
  }

  lemma HandoffIsQuiet(cfg: Config, s: Sink, binding: PolicyBinding, now: nat, ok: bool)
    requires Inv(s)
    ensures var t := RequestHandoff(s, binding, now, ok).sink; QuietMove(s, t) && Inv(t)
  {
    HandoffMoves(s, binding, now, ok);
    HandoffCallKeeps(s, binding, now, ok);
    if !Operational(s) { NeverRearmed(cfg, s, CallHandoff(binding, now), ok); }
  }

  lemma ObserveIsQuiet(cfg: Config, s: Sink, f: Telemetry, ok: bool)
    requires Inv(s)
    ensures var t := ObserveTelemetry(cfg, s, f, ok).sink; QuietMove(s, t) && Inv(t)
  {
    ObserveMoves(cfg, s, f, ok);
    ObserveCallKeeps(cfg, s, f, ok);
    if !Operational(s) { NeverRearmed(cfg, s, CallObserve(f), ok); }
  }

  lemma InvalidateIsQuiet(cfg: Config, s: Sink, now: nat, alive: bool, ok: bool)
    requires Inv(s)
    ensures var t := InvalidateTelemetry(cfg, s, now, alive, ok).sink; QuietMove(s, t) && Inv(t)
  {
    InvalidateMoves(cfg, s, now, alive, ok);
    InvalidateCallKeeps(cfg, s, now, alive, ok);
    if !Operational(s) { NeverRearmed(cfg, s, CallInvalidate(now, alive), ok); }
  }

  lemma TickIsQuiet(cfg: Config, s: Sink, now: nat, ok: bool)
    requires Inv(s)
    ensures var t := Tick(cfg, s, now, ok).sink; QuietMove(s, t) && Inv(t)
  {
    TickMoves(cfg, s, now, ok);
    TickKeeps(cfg, s, now, ok);
    if !Operational(s) { NeverRearmed(cfg, s, CallTick(now), ok); }
  }

  lemma DisarmIsQuiet(cfg: Config, s: Sink, now: nat, ok: bool)
    requires Inv(s)
    ensures var t := TerminallyDisarm(s, now, ok).sink; QuietMove(s, t) && Inv(t)
  {
    DisarmMoves(s, now, ok);
    DisarmKeeps(s, now, ok);
    if !Operational(s) { NeverRearmed(cfg, s, CallDisarm(now), ok); }
  }

  lemma RejectedSubmitIsQuiet(cfg: Config, s: Sink, c: MotionCandidate, now: nat, ok: bool)
    requires Inv(s)
    ensures var step := SubmitCandidate(cfg, s, c, now, ok);
      && Inv(step.sink)
      && if step.outcome.Result? && step.outcome.result.accepted
         then Operational(s) && LogsAccepted(s, step.sink, c, step.outcome.result)
         else QuietMove(s, step.sink)
  {
    SubmitMoves(cfg, s, c, now, ok);
    SubmitKeeps(cfg, s, c, now, ok);
    if !Operational(s) { NeverRearmed(cfg, s, CallSubmit(c, now), ok); }
  }

  /** A claim either stays with the generation the adapter holds or opens the next. */
  lemma ActivationKeeps(cfg: Config, s: Sink, a: AdapterState, binding: PolicyBinding, now: nat, ok: bool)
    requires Inv(s) && AdapterOk(s, a, binding)
    ensures var r := BeginActivation(s, a, binding, now, ok);
      && QuietMove(s, r.sink) && Inv(r.sink) && AdapterOk(r.sink, r.adapter, binding)
      && (r.outcome.Failed? || r.outcome.Generation?)
      && (r.outcome.Failed? ==> r.adapter == a)
      && (r.outcome.Generation? ==>
            && r.adapter.generation == Some(r.outcome.generation) && r.outcome.generation == r.sink.authority.generation
            && Owner(r.sink.authority) == Some(binding)
            && ((r.sink == s && r.adapter == a) || r.outcome.generation == s.authority.generation + 1))
  {
    HandoffIsQuiet(cfg, s, binding, now, ok);
    HandoffMoves(s, binding, now, ok);
  }

  /** The packets an adapter can send. */
  lemma ViolationKeeps(cfg: Config, s: Sink, a: AdapterState, binding: PolicyBinding, generation: nat, now: nat,
                       error: Error, ok: bool)
    requires Inv(s)
    ensures var r := Violation(s, a, binding, generation, now, error, ok);
      QuietMove(s, r.sink) && Inv(r.sink) && r.adapter.generation.None? && r.outcome.Failed?
  {
    SourceStopIsQuiet(cfg, s, binding, generation, now, ok);
  }

  lemma SendCandidateKeeps(cfg: Config, s: Sink, a: AdapterState, binding: PolicyBinding, p: CandidatePacket,
                           now: nat, ok: bool)
    requires Inv(s)
    ensures var r := SendCandidate(cfg, s, a, binding, p, now, ok);
      && Inv(r.sink) && (r.adapter == a || r.adapter.generation.None?)
      && if r.outcome.Result? && r.outcome.result.accepted then
           && r.adapter == a && p.CandidatePacket? && a.generation == Some(p.candidate.generation)
           && Operational(s) && LogsAccepted(s, r.sink, p.candidate, r.outcome.result)
         else QuietMove(s, r.sink)
  {
    NothingIsQuiet(s);
    if a.generation.None? {
    } else if p.BadCandidatePacket? {
      ViolationKeeps(cfg, s, a, binding, a.generation.value, now, MalformedPacket, ok);
    } else if p.candidate.generation != a.generation.value {
    } else if p.candidate.source != binding.source || p.candidate.mode != binding.mode {
      ViolationKeeps(cfg, s, a, binding, a.generation.value, now, PolicyMismatch, ok);
    } else {
      RejectedSubmitIsQuiet(cfg, s, p.candidate, now, ok);
    }
  }

  lemma NothingIsQuiet(s: Sink)
    ensures QuietMove(s, s)
  {}

  /** An accepted RL command belongs to the generation RL owns. */
  predicate RlAccepts(s: Sink, t: Sink) {
    && Operational(s) && s.authority.phase.Active? && s.authority.active == Some(RL_BINDING)
    && t.authority == s.authority && t.seen == s.seen && |t.log| == |s.log| + 1 && t.log[..|s.log|] == s.log
    && Last(t).generation == s.authority.generation
  }

  lemma SendVelocityKeeps(cfg: Config, s: Sink, a: AdapterState, p: VelocityPacket, now: nat, wallMs: nat, ok: bool)
    requires Inv(s)
    ensures var r := SendVelocity(cfg, s, a, RL_BINDING, p, now, wallMs, ok);
      && Inv(r.sink) && (r.adapter.generation == a.generation || r.adapter.generation.None?)
      && if r.outcome.Result? && r.outcome.result.accepted then RlAccepts(s, r.sink) else QuietMove(s, r.sink)
  {
    NothingIsQuiet(s);
    if a.generation.Some? {
      var d := DecodeVelocity(p, wallMs, a.lastSequence);
      if d.None? {
        ViolationKeeps(cfg, s, a, RL_BINDING, a.generation.value, now, MalformedPacket, ok);
      } else {
        RejectedSubmitIsQuiet(cfg, s, VelocityCandidate(RL_BINDING, a.generation.value, d.value, now), now, ok);
      }
    }
  }
}
