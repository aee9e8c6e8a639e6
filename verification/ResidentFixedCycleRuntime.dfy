/** resident_fixed_cycle_runtime.py, class ResidentFixedCycleRuntime, in place,
    with the coordinator it is the driver of.  The clock, the ACT worker and the
    behavior executor are what a call finds in its Env. */
module ResidentFixedCycleRuntimes {
  import opened Wrappers
  import opened ResidentMotionCores
  import opened FixedCyclePlans
  import Cycles = FixedCycle
  import opened ResidentFixedCycles
  import opened FixedCycleRuntime
  import Spec = FixedCycleRuntime

  class ResidentFixedCycleRuntime {
    const cfg: MissionConfig
    const cycle: ResidentFixedCycle
    const core: ResidentMotionCore
    var ownerDisarmed: bool
    var pending: Option<Pending>
    var session: string
    var requests: nat
    var actGeneration: Option<nat>
    var actStartedNs: Option<nat>
    var actWasActive: bool
    var disarmedNs: Option<nat>

    ghost function Repr(): set<object>
      reads this
    {
      {this, cycle, core, core.sink, core.sink.authority, core.sink.encoder, core.rl, core.act}
    }

    ghost predicate Valid()
      reads Repr()
    {
      cycle.Valid() && cycle.plan == cfg.plan && core.Valid() && core.cfg == cfg.core
    }

    ghost function State(): Mission
      reads Repr()
    {
      Mission(cycle.State(), ownerDisarmed, pending, session, requests, actGeneration, actStartedNs, actWasActive,
              disarmedNs, core.State())
    }

    constructor (cfg: MissionConfig, core: ResidentMotionCore)
      requires PlanOk(cfg.plan) && core.Valid() && core.cfg == cfg.core
      ensures Valid() && this.cfg == cfg && this.core == core
      ensures State() == InitialMission(cfg.plan).(core := core.State())
    {
      this.cfg := cfg;
      this.core := core;
      cycle := new ResidentFixedCycle(cfg.plan);
      ownerDisarmed, pending, session, requests := false, None, "", 0;
      actGeneration, actStartedNs, actWasActive, disarmedNs := None, None, false, None;
    }

    // ---------- the coordinator ----------

    method CloseOwner(e: Env) returns (raised: bool)
      requires Valid()
      modifies Repr()
      ensures Valid() && MissionStep(State(), raised) == CoordinatorDisarm(old(State()), e)
    {
      if ownerDisarmed { return false; }
      raised := TerminalDisarm(e);
      if !raised { ownerDisarmed := true; }
    }

    method TerminalDisarm(e: Env) returns (raised: bool)
      requires Valid()
      modifies Repr()
      ensures Valid() && MissionStep(State(), raised) == DriverDisarm(old(State()), e)
    {
      pending := None;
      var outcome := core.TerminalDisarm(e.now, e.disarmOk);
      if outcome.Failed? { return true; }
      disarmedNs := Some(e.now);
      raised := false;
    }

    method FailCoordinated(e: Env, reason: string) returns (raised: bool)
      requires Valid()
      modifies Repr()
      ensures Valid() && MissionStep(State(), raised) == CoordinatorFail(old(State()), e, reason)
    {
      raised := CloseOwner(e);
      if raised { return; }
      var done := cycle.Fail(reason);
      raised := !done;
    }

    method Fail(e: Env, reason: string) returns (raised: bool)
      requires Valid()
      modifies Repr()
      ensures Valid() && MissionStep(State(), raised) == MissionFail(old(State()), e, reason)
    {
      if cycle.snapshot.terminal { return false; }
      pending := None;
      raised := FailCoordinated(e, reason);
    }

    // ---------- behaviors ----------

    method OnBehaviorRefused(e: Env, reason: string) returns (raised: bool)
      requires Valid()
      modifies Repr()
      ensures Valid() && MissionStep(State(), raised) == BehaviorRefused(cfg, old(State()), e, reason)
    {
      if cycle.snapshot.terminal { return false; }
      var child := if cycle.snapshot.stage == Cycles.ExecuteDump then Cycles.FixedActionChild else Cycles.FollowChild;
      var reply := cycle.RecordChildResult(Cycles.ChildResult(child, Cycles.ChildOther, reason, true, None));
      if reply.Refused? { return true; }
      raised := CloseOwner(e);
    }

    method DispatchPendingIfReady(e: Env) returns (raised: bool)
      requires Valid()
      modifies Repr()
      ensures Valid() && MissionStep(State(), raised) == DispatchPending(cfg, old(State()), e)
    {
      if pending.None? || cycle.snapshot.terminal { return false; }
      if e.now - pending.value.createdNs > cfg.activationTimeoutNs {
        raised := Fail(e, "RL_ACTIVATION_TIMEOUT");
        return;
      }
      if !core.RlIsActiveNow() || !e.idle { return false; }
      raised := Submit(e);
    }

    method Submit(e: Env) returns (raised: bool)
      requires Valid()
      modifies Repr()
      ensures Valid() && MissionStep(State(), raised) == SubmitPending(cfg, old(State()), e)
    {
      pending := None;
      requests := requests + 1;
      raised := false;
      if e.refusal.Some? {
        raised := OnBehaviorRefused(e, e.refusal.value);
      }
    }

    method QueueBehavior(e: Env, kind: Kind, target: string) returns (raised: bool)
      requires Valid()
      modifies Repr()
      ensures Valid() && MissionStep(State(), raised) == StartBehavior(cfg, old(State()), e, kind, target)
    {
      if pending.Some? { return true; }
      pending := Some(Pending(kind, target, e.now));
      if !core.RlIsActiveNow() {
        var outcome := core.ActivateRl(e.now, e.ok);
        if outcome.Failed? { return true; }
      }
      raised := DispatchPendingIfReady(e);
    }

    method ClaimAct(e: Env, maxSteps: nat) returns (raised: bool)
      requires Valid()
      modifies Repr()
      ensures Valid() && MissionStep(State(), raised) == StartAct(old(State()), e, maxSteps)
    {
      if !e.workerReady || !e.idle { return true; }
      var outcome := core.ActivateAct(Some(maxSteps as int), e.now, e.ok);
      if !outcome.Generation? { return true; }
      actGeneration := Some(outcome.generation);
      actStartedNs := Some(e.now);
      actWasActive := core.ActIsActiveNow();
      raised := false;
    }

    method DispatchDirective(e: Env, d: Cycles.Directive) returns (raised: bool)
      requires Valid()
      modifies Repr()
      ensures Valid() && MissionStep(State(), raised) == DispatchUnchecked(cfg, old(State()), e, d)
    {
      match d
      case FollowTo(_, artifact) =>
        var target := TargetForArtifact(cfg.plan, artifact);
        if target.None? { return true; }
        raised := QueueBehavior(e, FollowBehavior, target.value);
      case RunAct(maxSteps) =>
        raised := ClaimAct(e, maxSteps);
      case RunFixed(behavior) =>
        raised := QueueBehavior(e, FixedBehavior, behavior);
    }

    method Dispatch(e: Env, d: Cycles.Directive) returns (raised: bool)
      requires Valid()
      modifies Repr()
      ensures Valid() && MissionStep(State(), raised) == Spec.Dispatch(cfg, old(State()), e, d)
    {
      raised := DispatchDirective(e, d);
      if raised {
        var done := cycle.Fail("LOCAL_DISPATCH_FAILED");
        if done {
          var _ := CloseOwner(e);
        }
      }
    }

    method RecordChildResult(e: Env, r: Cycles.ChildResult) returns (raised: bool)
      requires Valid()
      modifies Repr()
      ensures Valid() && MissionStep(State(), raised) == RecordChild(cfg, old(State()), e, r)
    {
      var reply := cycle.RecordChildResult(r);
      match reply
      case Refused(_) => raised := true;
      case Nothing => raised := CloseOwner(e);
      case Go(d) => raised := Dispatch(e, d);
    }

    // ---------- public methods ----------

    method Start(e: Env, a: Cycles.StartArgs, safeRunId: bool) returns (raised: bool)
      requires Valid()
      modifies Repr()
      ensures Valid() && MissionStep(State(), raised) == StartMission(cfg, old(State()), e, a, safeRunId)
    {
      Clear(a.runId);
      var renewal := core.RenewMissionLease(cfg.leaseMs, e.now, e.disarmOk);
      if renewal.Failed? { return true; }
      ownerDisarmed := false;
      var reply := cycle.Start(a, safeRunId);
      if !reply.Go? { return true; }
      raised := Dispatch(e, reply.directive);
    }

    method Clear(session: string)
      requires Valid()
      modifies this
      ensures Valid() && State() == Cleared(old(State()), session)
    {
      this.session, requests, pending := session, 0, None;
      actGeneration, actStartedNs, actWasActive, disarmedNs := None, None, false, None;
    }

    method AdvanceAct(e: Env) returns (raised: bool)
      requires Valid()
      modifies Repr()
      ensures Valid() && MissionStep(State(), raised) == Spec.AdvanceAct(cfg, old(State()), e)
    {
      raised := false;
      if !e.workerReady {
        raised := Fail(e, "ACT_WORKER_UNAVAILABLE");
        return;
      }
      var g := core.segment;
      if g.generation != actGeneration {
        raised := Fail(e, "ACT_GENERATION_MISMATCH");
        return;
      }
      if g.complete {
        actGeneration, actStartedNs := None, None;
        if g.reason.None? {
          raised := Fail(e, "ACT_COMPLETION_REASON_INVALID");
          return;
        }
        raised := RecordChildResult(e, ActResult(g));
        return;
      }
      if core.ActIsActiveNow() {
        actWasActive := true;
        return;
      }
      if actWasActive {
        raised := Fail(e, "ACT_AUTHORITY_LOST");
        return;
      }
      if actStartedNs.Some? && e.now - actStartedNs.value > cfg.activationTimeoutNs {
        raised := Fail(e, "ACT_ACTIVATION_TIMEOUT");
      }
    }

    method Tick(e: Env) returns (raised: bool)
      requires Valid()
      modifies Repr()
      ensures Valid() && MissionStep(State(), raised) == TickMission(cfg, old(State()), e)
    {
      raised := false;
      var snapshot := cycle.snapshot;
      if snapshot.stage == Cycles.IdleStage || snapshot.terminal { return; }
      if core.sink.RefusalNow().Some? {
        raised := Fail(e, "RESIDENT_CORE_NOT_OPERATIONAL");
        return;
      }
      if snapshot.stage == Cycles.ActDig || snapshot.stage == Cycles.ActWholeCycle {
        raised := AdvanceAct(e);
        if raised { return; }
      }
      raised := DispatchPendingIfReady(e);
    }

    method Heartbeat(e: Env) returns (raised: bool)
      requires Valid()
      modifies Repr()
      ensures Valid() && MissionStep(State(), raised) == Spec.Heartbeat(cfg, old(State()), e)
    {
      if cycle.snapshot.stage == Cycles.IdleStage { return true; }
      if cycle.snapshot.terminal { return false; }
      if core.sink.RefusalNow().Some? { return true; }
      var renewal := core.RenewMissionLease(cfg.leaseMs, e.now, e.disarmOk);
      raised := renewal.Failed?;
    }

    method Cancel(e: Env) returns (raised: bool)
      requires Valid()
      modifies Repr()
      ensures Valid() && MissionStep(State(), raised) == CancelMission(old(State()), e)
    {
      pending := None;
      raised := CloseOwner(e);
      if raised { return; }
      var done := cycle.Cancel("CANCELLED");
      raised := !done;
    }

    method OnBehaviorResult(e: Env, outcome: Cycles.ChildOutcome, reason: string, quiescent: bool) returns (raised: bool)
      requires Valid()
      modifies Repr()
      ensures Valid() && MissionStep(State(), raised) == BehaviorResult(cfg, old(State()), e, outcome, reason, quiescent)
    {
      if cycle.snapshot.terminal { return false; }
      var child := if cycle.snapshot.stage == Cycles.ExecuteDump then Cycles.FixedActionChild else Cycles.FollowChild;
      raised := RecordChildResult(e, Cycles.ChildResult(child, outcome, reason, quiescent, None));
    }
  }
}
