/** The owner moves its sink only by the sink's own calls, so whatever holds of every
    run of the sink holds of the sink of every run of the owner. */
module OwnerRuns {
  import opened Wrappers
  import opened ResidentMotion
  import opened ResidentSink
  import opened ResidentIngress
  import opened ResidentCore
  import opened HandoffInvariant
  import opened SinkTheorems
  import opened CoreInvariant
  import opened CoreTheorems
  import opened MotionClaims
  import opened InvalidRows
  import opened HandedRows

  // ---------- the calls behind each method ----------

  function ClaimCalls(s: Sink, a: AdapterState, binding: PolicyBinding, now: nat, ok: bool): seq<TimedCall> {
    if Holds(s, a, binding) then [] else [TimedCall(CallHandoff(binding, now), ok)]
  }

  function FollowCalls(c: Core, f: Telemetry, ok: bool): seq<TimedCall> {
    if !SegmentEchoed(c.segment, f) || !ActIsActive(c.sink) || c.segment.generation != Some(c.sink.authority.generation)
    then []
    else ClaimCalls(c.sink, c.rl, RL_BINDING, f.receivedNs, ok)
  }

  function RowCalls(failed: bool, c: Core, f: Telemetry, ok: bool): seq<TimedCall> {
    if failed then [] else FollowCalls(c, f, ok)
  }

  function ObserveCalls(cfg: CoreConfig, c: Core, f: Telemetry, ok: bool): seq<TimedCall> {
    var step := ObserveTelemetry(cfg.sink, c.sink, f, ok);
    [TimedCall(CallObserve(f), ok)] + RowCalls(step.outcome.Failed?, c.(sink := step.sink), f, ok)
  }

  function StopCalls(binding: PolicyBinding, generation: Option<nat>, now: nat, ok: bool): seq<TimedCall> {
    if generation.None? then [] else [TimedCall(CallSourceStop(binding, generation.value, now), ok)]
  }

  function CandidateCalls(a: AdapterState, binding: PolicyBinding, p: CandidatePacket, now: nat, ok: bool): seq<TimedCall> {
    if a.generation.None? then []
    else if p.BadCandidatePacket? then StopCalls(binding, a.generation, now, ok)
    else if p.candidate.generation != a.generation.value then []
    else if p.candidate.source != binding.source || p.candidate.mode != binding.mode then
      StopCalls(binding, a.generation, now, ok)
    else [TimedCall(CallSubmit(p.candidate, now), ok)]
  }

  function VelocityCalls(a: AdapterState, binding: PolicyBinding, p: VelocityPacket, now: nat, wallMs: nat, ok: bool)
    : seq<TimedCall>
  {
    if a.generation.None? then []
    else
      var decoded := DecodeVelocity(p, wallMs, a.lastSequence);
      if decoded.None? then StopCalls(binding, a.generation, now, ok)
      else
        var c := VelocityCandidate(binding, a.generation.value, decoded.value, now);
        if Representable(c) then [TimedCall(CallSubmit(c, now), ok)] else []
  }

  function DisarmCalls(c: Core, now: nat, ok: bool): seq<TimedCall> {
    if c.disarmResult.Some? then [] else [TimedCall(CallDisarm(now), ok)]
  }

  function SinkCalls(cfg: CoreConfig, c: Core, call: CoreCall, ok: bool): seq<TimedCall> {
    match call
    case CoreCallInitialize(f) => [TimedCall(CallInitialize(f), ok)]
    case CoreCallObserve(f) => ObserveCalls(cfg, c, f, ok)
    case CoreCallInvalidate(now, alive) => [TimedCall(CallInvalidate(now, alive), ok)]
    case CoreCallActivateRl(now) => ClaimCalls(c.sink, c.rl, RL_BINDING, now, ok)
    case CoreCallActivateAct(maxSteps, now) =>
      if BudgetAllowed(maxSteps) then ClaimCalls(c.sink, c.act, ACT_BINDING, now, ok) else []
    case CoreCallSubmitAct(p, now) => if c.segment.handoffDue then [] else CandidateCalls(c.act, ACT_BINDING, p, now, ok)
    case CoreCallSendRl(p, now, wallMs) => VelocityCalls(c.rl, RL_BINDING, p, now, wallMs, ok)
    case CoreCallStopRl(now) => StopCalls(RL_BINDING, c.rl.generation, now, ok)
    case CoreCallDisconnect(now) =>
      if Operational(c.sink) then StopCalls(ACT_BINDING, c.segment.generation, now, ok) else []
    case CoreCallRenew(leaseMs, now) =>
      if MIN_MISSION_LEASE_MS <= leaseMs <= MAX_MISSION_LEASE_MS && Operational(c.sink) &&
         c.deadlineNs.Some? && now >= c.deadlineNs.value then DisarmCalls(c, now, ok) else []
    case CoreCallTick(now) =>
      if c.deadlineNs.Some? && now >= c.deadlineNs.value then DisarmCalls(c, now, ok)
      else [TimedCall(CallTick(now), ok)]
    case CoreCallDisarm(now) => DisarmCalls(c, now, ok)
  }

  // ---------- they are all that happens to the sink ----------

  lemma OneCall(cfg: Config, s: Sink, call: TimedCall)
    ensures RunFrom(cfg, s, [call]) == Perform(cfg, s, call.call, call.ok).sink
  {}

  lemma ClaimIsCalls(cfg: Config, s: Sink, a: AdapterState, binding: PolicyBinding, now: nat, ok: bool)
    ensures BeginActivation(s, a, binding, now, ok).sink == RunFrom(cfg, s, ClaimCalls(s, a, binding, now, ok))
  {
    OneCall(cfg, s, TimedCall(CallHandoff(binding, now), ok));
  }

  lemma FollowIsCalls(cfg: Config, c: Core, f: Telemetry, ok: bool)
    ensures AfterObserve(c, f, ok).core.sink == RunFrom(cfg, c.sink, FollowCalls(c, f, ok))
  {
    ClaimIsCalls(cfg, c.sink, c.rl, RL_BINDING, f.receivedNs, ok);
  }

  lemma CallThen(cfg: Config, s: Sink, call: TimedCall, more: seq<TimedCall>)
    ensures RunFrom(cfg, s, [call] + more) == RunFrom(cfg, Perform(cfg, s, call.call, call.ok).sink, more)
  {
    assert ([call] + more)[1..] == more;
  }

  lemma RestOfRowIsCalls(cfg: Config, failed: bool, c: Core, f: Telemetry, ok: bool)
    ensures RunFrom(cfg, c.sink, RowCalls(failed, c, f, ok)) ==
            if failed then c.sink else AfterObserve(c, f, ok).core.sink
  {
    FollowIsCalls(cfg, c, f, ok);
  }

  lemma ObserveIsCalls(cfg: CoreConfig, c: Core, f: Telemetry, ok: bool)
    ensures CoreObserve(cfg, c, f, ok).core.sink == RunFrom(cfg.sink, c.sink, ObserveCalls(cfg, c, f, ok))
  {
    var step := ObserveTelemetry(cfg.sink, c.sink, f, ok);
    var d := c.(sink := step.sink);
    RestOfRowIsCalls(cfg.sink, step.outcome.Failed?, d, f, ok);
    CallThen(cfg.sink, c.sink, TimedCall(CallObserve(f), ok), RowCalls(step.outcome.Failed?, d, f, ok));
  }

  lemma StopIsCalls(cfg: Config, s: Sink, binding: PolicyBinding, generation: Option<nat>, now: nat, ok: bool)
    ensures generation.Some? ==>
              RequestSourceStop(s, binding, generation.value, now, ok).sink ==
              RunFrom(cfg, s, StopCalls(binding, generation, now, ok))
    ensures generation.None? ==> RunFrom(cfg, s, StopCalls(binding, generation, now, ok)) == s
  {
    if generation.Some? { OneCall(cfg, s, TimedCall(CallSourceStop(binding, generation.value, now), ok)); }
  }

  lemma CandidateIsCalls(cfg: Config, s: Sink, a: AdapterState, binding: PolicyBinding, p: CandidatePacket, now: nat, ok: bool)
    ensures SendCandidate(cfg, s, a, binding, p, now, ok).sink == RunFrom(cfg, s, CandidateCalls(a, binding, p, now, ok))
  {
    StopIsCalls(cfg, s, binding, a.generation, now, ok);
    if p.CandidatePacket? { OneCall(cfg, s, TimedCall(CallSubmit(p.candidate, now), ok)); }
  }

  lemma VelocityIsCalls(cfg: Config, s: Sink, a: AdapterState, binding: PolicyBinding, p: VelocityPacket,
                        now: nat, wallMs: nat, ok: bool)
    ensures SendVelocity(cfg, s, a, binding, p, now, wallMs, ok).sink ==
            RunFrom(cfg, s, VelocityCalls(a, binding, p, now, wallMs, ok))
  {
    StopIsCalls(cfg, s, binding, a.generation, now, ok);
    var decoded := DecodeVelocity(p, wallMs, a.lastSequence);
    if a.generation.Some? && decoded.Some? {
      OneCall(cfg, s, TimedCall(CallSubmit(VelocityCandidate(binding, a.generation.value, decoded.value, now), now), ok));
    }
  }

  lemma DisarmIsCalls(cfg: Config, c: Core, now: nat, ok: bool)
    ensures CoreDisarm(c, now, ok).core.sink == RunFrom(cfg, c.sink, DisarmCalls(c, now, ok))
  {
    OneCall(cfg, c.sink, TimedCall(CallDisarm(now), ok));
  }

  lemma ActivateActIsCalls(cfg: CoreConfig, c: Core, maxSteps: Option<int>, now: nat, ok: bool)
    ensures var call := CoreCallActivateAct(maxSteps, now);
      PerformCore(cfg, c, call, ok).core.sink == RunFrom(cfg.sink, c.sink, SinkCalls(cfg, c, call, ok))
  {
    ClaimIsCalls(cfg.sink, c.sink, c.act, ACT_BINDING, now, ok);
  }

  lemma TickIsCalls(cfg: CoreConfig, c: Core, now: nat, ok: bool)
    ensures CoreTick(cfg, c, now, ok).core.sink == RunFrom(cfg.sink, c.sink, SinkCalls(cfg, c, CoreCallTick(now), ok))
  {
    DisarmIsCalls(cfg.sink, c.(deadlineNs := None), now, ok);
    OneCall(cfg.sink, c.sink, TimedCall(CallTick(now), ok));
  }

  /** Every method of the owner does to the sink what a few calls of the sink do. */
  lemma MethodIsCalls(cfg: CoreConfig, c: Core, call: CoreCall, ok: bool)
    ensures PerformCore(cfg, c, call, ok).core.sink == RunFrom(cfg.sink, c.sink, SinkCalls(cfg, c, call, ok))
  {
    match call
    case CoreCallInitialize(f) => OneCall(cfg.sink, c.sink, TimedCall(CallInitialize(f), ok));
    case CoreCallObserve(f) => ObserveIsCalls(cfg, c, f, ok);
    case CoreCallInvalidate(now, alive) => OneCall(cfg.sink, c.sink, TimedCall(CallInvalidate(now, alive), ok));
    case CoreCallActivateRl(now) => ClaimIsCalls(cfg.sink, c.sink, c.rl, RL_BINDING, now, ok);
    case CoreCallActivateAct(maxSteps, now) => ActivateActIsCalls(cfg, c, maxSteps, now, ok);
    case CoreCallSubmitAct(p, now) => CandidateIsCalls(cfg.sink, c.sink, c.act, ACT_BINDING, p, now, ok);
    case CoreCallSendRl(p, now, wallMs) => VelocityIsCalls(cfg.sink, c.sink, c.rl, RL_BINDING, p, now, wallMs, ok);
    case CoreCallStopRl(now) => StopIsCalls(cfg.sink, c.sink, RL_BINDING, c.rl.generation, now, ok);
    case CoreCallDisconnect(now) => StopIsCalls(cfg.sink, c.sink, ACT_BINDING, c.segment.generation, now, ok);
    case CoreCallRenew(leaseMs, now) => DisarmIsCalls(cfg.sink, c, now, ok);
    case CoreCallTick(now) => TickIsCalls(cfg, c, now, ok);
    case CoreCallDisarm(now) => DisarmIsCalls(cfg.sink, c, now, ok);
  }

  // ---------- runs ----------

  /** The calls of the sink behind a run of the owner. */
  function SinkRun(cfg: CoreConfig, calls: seq<TimedCoreCall>): seq<TimedCall> {
    if calls == [] then []
    else
      var n := |calls| - 1;
      SinkRun(cfg, calls[..n]) + SinkCalls(cfg, RunCore(cfg, calls[..n]), calls[n].call, calls[n].ok)
  }

  lemma {:induction false} RunThenFrom(cfg: Config, calls: seq<TimedCall>, more: seq<TimedCall>)
    ensures Run(cfg, calls + more) == RunFrom(cfg, Run(cfg, calls), more)
    decreases |more|
  {
    if more == [] {
      assert calls + more == calls;
    } else {
      var first := calls + [more[0]];
      assert calls + more == first + more[1..];
      assert first[..|calls|] == calls;
      RunThenFrom(cfg, first, more[1..]);
    }
  }

  /** The sink of every run of the owner is that of a run of the sink. */
  lemma {:induction false} OwnerRunIsSinkRun(cfg: CoreConfig, calls: seq<TimedCoreCall>)
    ensures RunCore(cfg, calls).sink == Run(cfg.sink, SinkRun(cfg, calls))
  {
    if calls != [] {
      var n := |calls| - 1;
      var c := RunCore(cfg, calls[..n]);
      OwnerRunIsSinkRun(cfg, calls[..n]);
      MethodIsCalls(cfg, c, calls[n].call, calls[n].ok);
      RunThenFrom(cfg.sink, SinkRun(cfg, calls[..n]), SinkCalls(cfg, c, calls[n].call, calls[n].ok));
    }
  }

  /** So over every run of the owner handoffs pass two zeros, and motion its claim;
      if the run is causal, by rows handed in. */
  lemma OwnerHandoffsPassTwoZeros(cfg: CoreConfig, calls: seq<TimedCoreCall>)
    ensures var s := RunCore(cfg, calls).sink;
      TwoZeroHandoff(s.log, s.seen) && MotionsFollowClaims(s.log, s.seen)
    ensures CausalRun(cfg.sink, SinkRun(cfg, calls)) ==>
              var log, handed := RunCore(cfg, calls).sink.log, Handed(cfg.sink, SinkRun(cfg, calls));
              TwoZeroHandoff(log, handed) && MotionsFollowClaims(log, handed)
  {
    OwnerRunIsSinkRun(cfg, calls);
    EveryRunKeepsInvariant(cfg.sink, SinkRun(cfg, calls));
    EveryMotionFollowsItsClaim(cfg.sink, SinkRun(cfg, calls));
    if CausalRun(cfg.sink, SinkRun(cfg, calls)) {
      HandoffsRestOnHandedRows(cfg.sink, SinkRun(cfg, calls));
    }
  }

  /** Some row handed in after the last command echoed it as a zero. */
  ghost predicate LastZeroHanded(s: Sink, handed: seq<Seen>) {
    s.log != [] && exists y :: y in handed && y.at == |s.log| && EchoesZero(y.frame, Last(s))
  }

  lemma EchoWasHandedIn(s: Sink, handed: seq<Seen>)
    requires RowsBacked(s.log, s.seen, handed) && LastZeroEchoed(s)
    ensures LastZeroHanded(s, handed)
  {
    var j :| 0 <= j < |s.seen| && s.seen[j].at == |s.log| && EchoesZero(s.seen[j].frame, Last(s));
    if s.seen[j] !in handed {
      assert EchoHanded(handed, s.log[|s.log| - 1], |s.log| - 1, |s.log|);
    }
  }

  /** Over every causal run a terminal zero counts as acknowledged only on a row that
      was handed in after it. */
  lemma ReleaseRestsOnHandedRows(cfg: CoreConfig, calls: seq<TimedCoreCall>)
    requires CausalRun(cfg.sink, SinkRun(cfg, calls))
    ensures var c := RunCore(cfg, calls);
      c.zeroAcknowledged && c.disarmResult.Some? && c.disarmResult.value.writePerformed ==>
        LastZeroHanded(c.sink, Handed(cfg.sink, SinkRun(cfg, calls)))
  {
    var c := RunCore(cfg, calls);
    OwnerRunIsSinkRun(cfg, calls);
    CausalRunIsBacked(cfg.sink, SinkRun(cfg, calls));
    ReleaseIsOnEvidence(cfg, calls);
    if c.zeroAcknowledged && c.disarmResult.value.writePerformed {
      EchoWasHandedIn(c.sink, Handed(cfg.sink, SinkRun(cfg, calls)));
    }
  }
}
