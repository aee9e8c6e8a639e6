/** Motion at or after the mission deadline (edge_runtime/resident_core.py,
    renew_mission_lease, tick and submit_act_candidate): when it happens, exactly,
    and how late it can be. */
module MissionLeaseOverrun {
  import opened Wrappers
  import opened ResidentMotion
  import opened ResidentCommands
  import opened ResidentSink
  import opened ResidentIngress
  import opened ResidentCore
  import opened HandoffInvariant
  import opened SinkTheorems
  import opened SinkEffects
  import opened CoreInvariant
  import opened CorePreservation
  import opened CoreTheorems
  import opened MissionLease

  // ---------- which call moves the machine ----------

  /** The candidate a worker's packet becomes, if its adapter lets it through. */
  function Submitted(c: Core, call: CoreCall): Option<MotionCandidate> {
    match call
    case CoreCallSubmitAct(p, now) =>
      if c.segment.handoffDue || c.act.generation.None? || p.BadCandidatePacket? then None
      else if c.act.generation != Some(p.candidate.generation) ||
              PolicyBinding(p.candidate.source, p.candidate.mode) != ACT_BINDING then None
      else Some(p.candidate)
    case CoreCallSendRl(p, now, wallMs) =>
      var decoded := DecodeVelocity(p, wallMs, c.rl.lastSequence);
      if c.rl.generation.None? || decoded.None? then None
      else
        var m := VelocityCandidate(RL_BINDING, c.rl.generation.value, decoded.value, now);
        if Representable(m) then Some(m) else None
    case _ => None
  }

  /** The sink takes the candidate: routing accepts it, nothing is pending, and the
      serial port works.  The mission deadline is not part of it. */
  predicate Takes(cfg: Config, s: Sink, c: MotionCandidate, now: nat, ok: bool) {
    Operational(s) && s.pendingAck.None? && s.firstNonzero.None? && Routed(cfg, s, c, now).accepted && ok
  }

  /** The call is about to move the machine. */
  predicate TakesMotion(cfg: CoreConfig, c: Core, call: CoreCall, ok: bool) {
    var m := Submitted(c, call);
    IsSubmission(call) && m.Some? && m.value.action != ZERO_ACTION && Takes(cfg.sink, c.sink, m.value, call.now, ok)
  }

  lemma TakenIffAccepted(cfg: Config, s: Sink, c: MotionCandidate, now: nat, ok: bool)
    ensures var step := SubmitCandidate(cfg, s, c, now, ok);
      && (Takes(cfg, s, c, now, ok) <==> step.outcome.Result? && step.outcome.result.accepted)
      && (Takes(cfg, s, c, now, ok) ==> Operational(step.sink))
  {
    var d := Routed(cfg, s, c, now);
    RouteAcceptsExactly(s.authority, cfg.maxFutureSkewNs, c, now,
      s.authority.active.Some? && SafetyPermits(cfg, s, now, s.authority.active.value.mode));
    if Operational(s) && d.reason.SafetyRejected? {
      StopIsFaithful(s, now, Some(SafetyRejected), ok);
    } else if Operational(s) && d.mode.Some? {
      WriteCandidateMoves(s, c, d, now, ok);
      assert d.accepted ==> Encodable(d.mode.value, d.effectiveAction);
    }
  }

  /** The machine is moved by exactly one new command, stamped with the time of
      the call. */
  predicate MovesNow(s: Sink, t: Sink, now: nat) {
    && |t.log| == |s.log| + 1 && s.log <= t.log && Nonzero(Last(t)) && Last(t).at == now && Operational(t)
  }

  lemma SubmitMovesIff(cfg: Config, s: Sink, c: MotionCandidate, now: nat, ok: bool)
    requires Inv(s)
    ensures var t := SubmitCandidate(cfg, s, c, now, ok).sink;
      if Takes(cfg, s, c, now, ok) && c.action != ZERO_ACTION then MovesNow(s, t, now) else Still(s, t)
  {
    TakenIffAccepted(cfg, s, c, now, ok);
    SubmitStampsItsTime(cfg, s, c, now, ok);
    SubmitMoves(cfg, s, c, now, ok);
    if !Takes(cfg, s, c, now, ok) {
      RejectedSubmitIsQuiet(cfg, s, c, now, ok);
      QuietIsStill(s, SubmitCandidate(cfg, s, c, now, ok).sink);
    }
  }

  lemma ViolationIsStill(cfg: Config, s: Sink, a: AdapterState, binding: PolicyBinding, now: nat, error: Error, ok: bool)
    requires Inv(s) && a.generation.Some?
    ensures Still(s, Violation(s, a, binding, a.generation.value, now, error, ok).sink)
  {
    ViolationKeeps(cfg, s, a, binding, a.generation.value, now, error, ok);
    QuietIsStill(s, Violation(s, a, binding, a.generation.value, now, error, ok).sink);
  }

  lemma SubmittedReachesSink(cfg: CoreConfig, c: Core, p: CandidatePacket, now: nat, ok: bool)
    requires Submitted(c, CoreCallSubmitAct(p, now)).Some?
    ensures SubmitAct(cfg, c, p, now, ok).core.sink == SubmitCandidate(cfg.sink, c.sink, p.candidate, now, ok).sink
  {}

  lemma UnsubmittedIsStill(cfg: CoreConfig, c: Core, p: CandidatePacket, now: nat, ok: bool)
    requires Inv(c.sink) && Submitted(c, CoreCallSubmitAct(p, now)).None?
    ensures Still(c.sink, SubmitAct(cfg, c, p, now, ok).core.sink)
  {
    if !c.segment.handoffDue && c.act.generation.Some? {
      if p.BadCandidatePacket? {
        ViolationIsStill(cfg.sink, c.sink, c.act, ACT_BINDING, now, MalformedPacket, ok);
      } else {
        ViolationIsStill(cfg.sink, c.sink, c.act, ACT_BINDING, now, PolicyMismatch, ok);
      }
    }
  }

  lemma ActMovesIff(cfg: CoreConfig, c: Core, p: CandidatePacket, now: nat, ok: bool)
    requires Inv(c.sink)
    ensures var t := SubmitAct(cfg, c, p, now, ok).core.sink;
      if TakesMotion(cfg, c, CoreCallSubmitAct(p, now), ok) then MovesNow(c.sink, t, now) else Still(c.sink, t)
  {
    if Submitted(c, CoreCallSubmitAct(p, now)).None? {
      UnsubmittedIsStill(cfg, c, p, now, ok);
    } else {
      SubmittedReachesSink(cfg, c, p, now, ok);
      SubmitMovesIff(cfg.sink, c.sink, p.candidate, now, ok);
    }
  }

  lemma RlMovesIff(cfg: CoreConfig, c: Core, p: VelocityPacket, now: nat, wallMs: nat, ok: bool)
    requires Inv(c.sink)
    ensures var t := SendRl(cfg, c, p, now, wallMs, ok).core.sink;
      if TakesMotion(cfg, c, CoreCallSendRl(p, now, wallMs), ok) then MovesNow(c.sink, t, now) else Still(c.sink, t)
  {
    if c.rl.generation.Some? {
      var m := Submitted(c, CoreCallSendRl(p, now, wallMs));
      if m.Some? {
        SubmitMovesIff(cfg.sink, c.sink, m.value, now, ok);
      } else if DecodeVelocity(p, wallMs, c.rl.lastSequence).None? {
        ViolationIsStill(cfg.sink, c.sink, c.rl, RL_BINDING, now, MalformedPacket, ok);
      }
    }
  }

  lemma OthersAreStill(cfg: CoreConfig, c: Core, call: CoreCall, ok: bool)
    requires CoreInv(cfg, c) && !IsSubmission(call)
    ensures Still(c.sink, PerformCore(cfg, c, call, ok).core.sink)
  {
    OnlySubmissionsMove(cfg, c, call, ok);
  }

  /** Over all calls: motion is added exactly by a submission the sink takes. */
  lemma MovesIffTaken(cfg: CoreConfig, c: Core, call: CoreCall, ok: bool)
    requires CoreInv(cfg, c)
    ensures var t := PerformCore(cfg, c, call, ok).core.sink;
      if TakesMotion(cfg, c, call, ok) then MovesNow(c.sink, t, call.now) else Still(c.sink, t)
  {
    if call.CoreCallSubmitAct? {
      ActMovesIff(cfg, c, call.packet, call.now, ok);
    } else if call.CoreCallSendRl? {
      RlMovesIff(cfg, c, call.velocity, call.now, call.wallMs, ok);
    } else {
      OthersAreStill(cfg, c, call, ok);
    }
  }

  // ---------- the exact condition ----------

  /** What is added moves the machine only before the deadline. */
  predicate InLease(deadline: Option<nat>, s: Sink, t: Sink) {
    deadline.Some? ==>
      forall i | |s.log| <= i < |t.log| && Nonzero(t.log[i]) :: t.log[i].at < deadline.value
  }

  lemma InLeaseIff(deadline: Option<nat>, s: Sink, t: Sink, moves: bool, now: nat)
    requires if moves then MovesNow(s, t, now) else Still(s, t)
    ensures InLease(deadline, s, t) <==> (moves && deadline.Some? ==> now < deadline.value)
  {
    if moves {
      assert t.log[|s.log|] == Last(t);
    }
  }

  /** What a caller could check before the call. */
  predicate SubmittedInLease(cfg: CoreConfig, c: Core, call: CoreCall, ok: bool) {
    TakesMotion(cfg, c, call, ok) && c.deadlineNs.Some? ==> call.now < c.deadlineNs.value
  }

  /** One call moves the machine only inside the lease in force exactly when, if
      the sink takes it, it is a submission before the deadline. */
  lemma InLeaseIffSubmittedInLease(cfg: CoreConfig, c: Core, call: CoreCall, ok: bool)
    requires CoreInv(cfg, c)
    ensures InLease(c.deadlineNs, c.sink, PerformCore(cfg, c, call, ok).core.sink) <==> SubmittedInLease(cfg, c, call, ok)
  {
    MovesIffTaken(cfg, c, call, ok);
    var taken := TakesMotion(cfg, c, call, ok);
    InLeaseIff(c.deadlineNs, c.sink, PerformCore(cfg, c, call, ok).core.sink, taken, if taken then call.now else 0);
  }

  /** The k-th call of a run stays inside the lease it finds. */
  predicate InLeaseAt(cfg: CoreConfig, calls: seq<TimedCoreCall>, k: nat)
    requires k < |calls|
  {
    var c := RunCore(cfg, calls[..k]);
    InLease(c.deadlineNs, c.sink, RunCore(cfg, calls[..k + 1]).sink)
  }

  predicate SubmittedInLeaseAt(cfg: CoreConfig, calls: seq<TimedCoreCall>, k: nat)
    requires k < |calls|
  {
    SubmittedInLease(cfg, RunCore(cfg, calls[..k]), calls[k].call, calls[k].ok)
  }

  lemma {:induction false} CallStaysInLeaseIff(cfg: CoreConfig, calls: seq<TimedCoreCall>, k: nat)
    requires k < |calls|
    ensures InLeaseAt(cfg, calls, k) <==> SubmittedInLeaseAt(cfg, calls, k)
  {
    EveryCoreRunKeepsInvariant(cfg, calls[..k]);
    InLeaseIffSubmittedInLease(cfg, RunCore(cfg, calls[..k]), calls[k].call, calls[k].ok);
    assert calls[..k + 1][..k] == calls[..k];
  }

  /** A run moves the machine only inside the lease in force exactly when every
      submission the sink takes in it comes before the deadline: nothing else in
      the owner keeps motion inside the lease. */
  lemma {:induction false} RunStaysInLeaseIff(cfg: CoreConfig, calls: seq<TimedCoreCall>)
    ensures (forall k | 0 <= k < |calls| :: InLeaseAt(cfg, calls, k)) <==>
            (forall k | 0 <= k < |calls| :: SubmittedInLeaseAt(cfg, calls, k))
  {
    forall k | 0 <= k < |calls| ensures InLeaseAt(cfg, calls, k) <==> SubmittedInLeaseAt(cfg, calls, k) {
      CallStaysInLeaseIff(cfg, calls, k);
    }
  }

  // ---------- how late it can be ----------

  lemma RunExtends(cfg: CoreConfig, calls: seq<TimedCoreCall>, next: TimedCoreCall)
    ensures RunCore(cfg, calls + [next]) == PerformCore(cfg, RunCore(cfg, calls), next.call, next.ok).core
  {
    assert (calls + [next])[..|calls|] == calls;
  }

  lemma CheckExtends(calls: seq<TimedCoreCall>, next: TimedCoreCall)
    ensures LastCheck(calls + [next]) == if IsCheck(next.call) then Some(next.call.now) else LastCheck(calls)
  {
    assert (calls + [next])[..|calls|] == calls;
  }

  lemma PunctualExtends(calls: seq<TimedCoreCall>, next: TimedCoreCall, d: nat)
    requires Punctual(calls, d) && InTime(LastCheck(calls), next.call, d)
    ensures Punctual(calls + [next], d)
  {
    var all := calls + [next];
    forall k | 0 <= k < |all| ensures InTime(LastCheck(all[..k]), all[k].call, d) {
      assert all[..k] == if k < |calls| then calls[..k] else calls;
    }
  }

  function LeaseNs(leaseMs: int): (n: nat)
    requires MIN_MISSION_LEASE_MS <= leaseMs <= MAX_MISSION_LEASE_MS
    ensures n >= 5 * IDLE_ZERO_KEEPALIVE_NS
  {
    leaseMs * 1_000_000
  }

  /** A safe row for ACT that echoes command 0 or, before any command, none. */
  function Row(at: nat, echo: bool): Telemetry {
    Telemetry(at, 0, echo, false, Some(ManualAction), ZERO_ACTION, true, false, true, true, 0)
  }

  const PUSH := Action(Finite(0.5), Finite(0.0), Finite(0.0), Finite(0.0))

  /** The next ACT command, made and submitted at that time. */
  function Pushing(at: nat): TimedCoreCall {
    TimedCoreCall(
      CoreCallSubmitAct(CandidatePacket(MotionCandidate("act_dig", 1, ManualAction, PUSH, at, at, None)), at), true)
  }

  /** ACT waits for the echo of its zero. */
  predicate Claiming(c: Core, deadline: Option<nat>) {
    && Operational(c.sink) && c.deadlineNs == deadline
    && c.sink.authority == HandoffRequested(INITIAL_AUTHORITY, ACT_BINDING, 0)
    && c.sink.pendingAck == Some(PendingAck(1, ManualAction, TargetClaim, 0))
    && c.sink.telemetry == Some(Row(0, false))
    && c.sink.measurement.None? && c.sink.firstNonzero.None? && c.sink.lease.None?
    && c.act.generation == Some(1) && !c.segment.handoffDue
  }

  /** ACT is active under a lease and has not moved yet. */
  predicate Armed(c: Core, deadline: nat, at: nat) {
    && Operational(c.sink) && c.deadlineNs == Some(deadline)
    && c.sink.authority == AuthorityState(1, Active, Some(ACT_BINDING), None, None, None)
    && c.sink.pendingAck.None? && c.sink.telemetry == Some(Row(at, true))
    && c.sink.measurement.None? && c.sink.firstNonzero.None? && c.sink.lease.None? && !c.sink.latched
    && c.act.generation == Some(1) && !c.segment.handoffDue
  }

  lemma EchoArms(cfg: CoreConfig, c: Core, deadline: nat, at: nat)
    requires Claiming(c, Some(deadline))
    ensures Armed(CoreObserve(cfg, c, Row(at, true), true).core, deadline, at)
  {}

  lemma TickKeepsArmed(cfg: CoreConfig, c: Core, deadline: nat, at: nat)
    requires Armed(c, deadline, at) && at < deadline
    ensures Armed(CoreTick(cfg, c, at, true).core, deadline, at)
  {}

  lemma RowKeepsArmed(cfg: CoreConfig, c: Core, deadline: nat, at: nat, later: nat)
    requires Armed(c, deadline, at) && at <= later
    ensures Armed(CoreObserve(cfg, c, Row(later, true), true).core, deadline, later)
  {}

  lemma PushMoves(cfg: CoreConfig, c: Core, deadline: nat, at: nat)
    requires CoreInv(cfg, c) && Armed(c, deadline, at)
    ensures MovesNow(c.sink, PerformCore(cfg, c, Pushing(at).call, true).core.sink, at)
  {
    assert TakesMotion(cfg, c, Pushing(at).call, true);
    MovesIffTaken(cfg, c, Pushing(at).call, true);
  }

  /** A run that keeps to d and was last checked then. */
  predicate CheckedAt(calls: seq<TimedCoreCall>, d: nat, check: nat) {
    Punctual(calls, d) && LastCheck(calls) == Some(check)
  }

  lemma {:induction false} NoCheckYet(calls: seq<TimedCoreCall>)
    requires forall i | 0 <= i < |calls| :: !IsCheck(calls[i].call)
    ensures LastCheck(calls).None?
  {
    if calls != [] {
      NoCheckYet(calls[..|calls| - 1]);
    }
  }

  lemma {:induction false} FirstCheckIsPunctual(before: seq<TimedCoreCall>, check: TimedCoreCall, d: nat)
    requires forall i | 0 <= i < |before| :: !IsCheck(before[i].call)
    requires IsCheck(check.call)
    ensures CheckedAt(before + [check], d, check.call.now)
  {
    var all := before + [check];
    CheckExtends(before, check);
    forall k | 0 <= k < |all| ensures InTime(LastCheck(all[..k]), all[k].call, d) {
      assert all[..k] == before[..k];
      NoCheckYet(before[..k]);
    }
  }

  /** A claim of ACT at time 0. */
  lemma ClaimRun(cfg: CoreConfig) returns (calls: seq<TimedCoreCall>)
    ensures Claiming(RunCore(cfg, calls), None)
    ensures forall i | 0 <= i < |calls| :: !IsCheck(calls[i].call)
  {
    var initialize := TimedCoreCall(CoreCallInitialize(Row(0, false)), true);
    var activate := TimedCoreCall(CoreCallActivateAct(Some(5), 0), true);
    RunExtends(cfg, [], initialize);
    RunExtends(cfg, [initialize], activate);
    assert [] + [initialize] == [initialize];
    calls := [initialize] + [activate];
  }

  /** One renewal at time 0. */
  lemma RenewRun(cfg: CoreConfig, before: seq<TimedCoreCall>, leaseMs: int, d: nat) returns (calls: seq<TimedCoreCall>)
    requires MIN_MISSION_LEASE_MS <= leaseMs <= MAX_MISSION_LEASE_MS
    requires Claiming(RunCore(cfg, before), None) && forall i | 0 <= i < |before| :: !IsCheck(before[i].call)
    ensures Claiming(RunCore(cfg, calls), Some(LeaseNs(leaseMs))) && CheckedAt(calls, d, 0)
  {
    var renew := TimedCoreCall(CoreCallRenew(leaseMs, 0), true);
    RunExtends(cfg, before, renew);
    FirstCheckIsPunctual(before, renew, d);
    calls := before + [renew];
  }

  /** The echo of the claim's zero. */
  lemma EchoRun(cfg: CoreConfig, before: seq<TimedCoreCall>, deadline: nat, d: nat, at: nat)
    returns (calls: seq<TimedCoreCall>)
    requires Claiming(RunCore(cfg, before), Some(deadline)) && CheckedAt(before, d, 0)
    ensures Armed(RunCore(cfg, calls), deadline, at) && CheckedAt(calls, d, 0)
  {
    var echo := TimedCoreCall(CoreCallObserve(Row(at, true)), true);
    RunExtends(cfg, before, echo);
    EchoArms(cfg, RunCore(cfg, before), deadline, at);
    PunctualExtends(before, echo, d);
    CheckExtends(before, echo);
    calls := before + [echo];
  }

  /** A tick before the deadline. */
  lemma TickRun(cfg: CoreConfig, before: seq<TimedCoreCall>, deadline: nat, d: nat, at: nat)
    returns (calls: seq<TimedCoreCall>)
    requires Armed(RunCore(cfg, before), deadline, at) && CheckedAt(before, d, 0) && at < deadline
    ensures Armed(RunCore(cfg, calls), deadline, at) && CheckedAt(calls, d, at)
  {
    var tick := TimedCoreCall(CoreCallTick(at), true);
    RunExtends(cfg, before, tick);
    TickKeepsArmed(cfg, RunCore(cfg, before), deadline, at);
    PunctualExtends(before, tick, d);
    CheckExtends(before, tick);
    calls := before + [tick];
  }

  /** A row d after the last check. */
  lemma RowRun(cfg: CoreConfig, before: seq<TimedCoreCall>, deadline: nat, d: nat, at: nat)
    returns (calls: seq<TimedCoreCall>)
    requires Armed(RunCore(cfg, before), deadline, at) && CheckedAt(before, d, at)
    ensures Armed(RunCore(cfg, calls), deadline, at + d) && CheckedAt(calls, d, at)
  {
    var row := TimedCoreCall(CoreCallObserve(Row(at + d, true)), true);
    RunExtends(cfg, before, row);
    RowKeepsArmed(cfg, RunCore(cfg, before), deadline, at, at + d);
    PunctualExtends(before, row, d);
    CheckExtends(before, row);
    calls := before + [row];
  }

  /** ACT is armed d after a check one nanosecond before its deadline. */
  lemma ArmedRun(cfg: CoreConfig, leaseMs: int, d: nat) returns (calls: seq<TimedCoreCall>)
    requires MIN_MISSION_LEASE_MS <= leaseMs <= MAX_MISSION_LEASE_MS
    ensures Armed(RunCore(cfg, calls), LeaseNs(leaseMs), LeaseNs(leaseMs) - 1 + d)
    ensures CheckedAt(calls, d, LeaseNs(leaseMs) - 1)
  {
    var deadline := LeaseNs(leaseMs);
    calls := ClaimRun(cfg);
    calls := RenewRun(cfg, calls, leaseMs, d);
    calls := EchoRun(cfg, calls, deadline, d, deadline - 1);
    calls := TickRun(cfg, calls, deadline, d, deadline - 1);
    calls := RowRun(cfg, calls, deadline, d, deadline - 1);
  }

  /** The bound is attained: for every configuration, lease length and d there is a
      run with checks and submissions at most d apart whose last call moves the
      machine at deadline + d - 1, on an owner that is and stays operational. */
  lemma LeaseBoundIsAttained(cfg: CoreConfig, leaseMs: int, d: nat)
    returns (calls: seq<TimedCoreCall>, next: TimedCoreCall)
    requires MIN_MISSION_LEASE_MS <= leaseMs <= MAX_MISSION_LEASE_MS
    ensures Punctual(calls + [next], d)
    ensures RunCore(cfg, calls).deadlineNs == Some(LeaseNs(leaseMs)) && Operational(RunCore(cfg, calls).sink)
    ensures MovesNow(RunCore(cfg, calls).sink, PerformCore(cfg, RunCore(cfg, calls), next.call, next.ok).core.sink,
                     LeaseNs(leaseMs) + d - 1)
  {
    var deadline := LeaseNs(leaseMs);
    calls := ArmedRun(cfg, leaseMs, d);
    next := Pushing(deadline - 1 + d);
    EveryCoreRunKeepsInvariant(cfg, calls);
    PushMoves(cfg, RunCore(cfg, calls), deadline, deadline - 1 + d);
    PunctualExtends(calls, next, d);
  }

  /** In particular motion does happen at the deadline: with the shortest lease,
      renewed at 0, ACT moves the machine at 500 ms and the owner stays armed. */
  lemma MotionHappensAtDeadline(cfg: CoreConfig) returns (calls: seq<TimedCoreCall>, next: TimedCoreCall)
    ensures RunCore(cfg, calls).deadlineNs == Some(500_000_000)
    ensures MovesNow(RunCore(cfg, calls).sink, PerformCore(cfg, RunCore(cfg, calls), next.call, next.ok).core.sink,
                     500_000_000)
  {
    calls, next := LeaseBoundIsAttained(cfg, MIN_MISSION_LEASE_MS, 1);
  }
}
