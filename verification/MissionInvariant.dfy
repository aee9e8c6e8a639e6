/** What the fixed-cycle mission keeps while it drives the motion owner, and the
    contract between its ACT stages and the owner's step budget. */
module MissionInvariant {
  import opened Wrappers
  import opened ResidentSink
  import opened ResidentCore
  import opened CoreInvariant
  import opened CorePreservation
  import opened CoreTheorems
  import opened MissionLease
  import opened FixedCyclePlans
  import Cycles = FixedCycle
  import opened FixedCycleRuntime

  /** The failures that would mean the two modules disagree about ACT. */
  predicate Reserved(reason: string) {
    reason == "ACT_STEP_BUDGET_MISMATCH" || reason == "ACT_COMPLETION_REASON_INVALID" || reason == "ACT_GENERATION_MISMATCH"
  }

  /** Sockets and children report their own reasons, none of those three. */
  predicate EnvOk(e: Env) { e.refusal.Some? ==> !Reserved(e.refusal.value) }

  predicate OwnerClosed(c: Core) { c.sink.synchronized && c.sink.disarmed }

  ghost predicate Base(cfg: MissionConfig, m: Mission) {
    && CoreInv(cfg.core, m.core) && Cycles.CycleOk(cfg.plan, m.cycle) && !Reserved(m.cycle.snapshot.reason)
    && (!m.cycle.snapshot.stage.IdleStage? ==> m.core.sink.synchronized)
    && (m.ownerDisarmed ==> OwnerClosed(m.core))
  }

  /** In an ACT stage the owner's segment is the one the mission claimed, with
      the plan's budget. */
  predicate ActHeld(cfg: MissionConfig, m: Mission) {
    InActStage(m.cycle) ==>
      && m.actGeneration.Some? && m.core.segment.generation == m.actGeneration
      && m.core.segment.maxSteps == Some(cfg.plan.actMaxSteps)
  }

  ghost predicate MissionOk(cfg: MissionConfig, m: Mission) {
    Base(cfg, m) && ActHeld(cfg, m) && (m.cycle.snapshot.terminal ==> OwnerClosed(m.core))
  }

  // ---------- the owner's calls ----------

  /** A call that opens no ACT segment and re-arms nothing. */
  ghost predicate Follows(cfg: CoreConfig, c: Core, d: Core) {
    && CoreInv(cfg, d)
    && d.segment.generation == c.segment.generation && d.segment.maxSteps == c.segment.maxSteps
    && (c.sink.synchronized ==> d.sink.synchronized)
    && (OwnerClosed(c) ==> OwnerClosed(d))
  }

  /** Only a claim of ACT changes which segment is counted, and its budget. */
  lemma SegmentIdentity(cfg: CoreConfig, c: Core, call: CoreCall, ok: bool)
    requires !call.CoreCallActivateAct?
    ensures var d := PerformCore(cfg, c, call, ok).core;
      d.segment.generation == c.segment.generation && d.segment.maxSteps == c.segment.maxSteps
  {
    if call.CoreCallObserve? {
      var step := ObserveTelemetry(cfg.sink, c.sink, call.frame, ok);
      assert AfterObserve(c.(sink := step.sink), call.frame, ok).core.segment.generation == c.segment.generation;
    }
  }

  lemma OwnerCallFollows(cfg: CoreConfig, c: Core, call: CoreCall, ok: bool)
    requires CoreInv(cfg, c) && !call.CoreCallActivateAct?
    ensures Follows(cfg, c, PerformCore(cfg, c, call, ok).core)
  {
    PerformCoreKeeps(cfg, c, call, ok);
    SegmentIdentity(cfg, c, call, ok);
    OnlySubmissionsMove(cfg, c, call, ok);
    assert PerformCore(cfg, c, call, ok).core.sink == INITIAL_SINK || PerformCore(cfg, c, call, ok).core.sink.synchronized;
  }

  lemma DisarmFollows(cfg: CoreConfig, c: Core, now: nat, ok: bool)
    requires CoreInv(cfg, c)
    ensures Follows(cfg, c, CoreDisarm(c, now, ok).core)
    ensures c.sink.synchronized ==> OwnerClosed(CoreDisarm(c, now, ok).core)
  {
    DisarmKeepsCore(cfg, c, now, ok);
    DisarmKeepsSynchronized(c.sink, now, ok);
    if c.sink.synchronized { DisarmedAfterwards(cfg, c, now, ok); }
  }

  lemma RenewFollows(cfg: CoreConfig, c: Core, leaseMs: int, now: nat, ok: bool)
    requires CoreInv(cfg, c)
    ensures Follows(cfg, c, RenewLease(c, leaseMs, now, ok).core)
    ensures !RenewLease(c, leaseMs, now, ok).outcome.Failed? ==> Operational(c.sink)
  {
    if Operational(c.sink) && c.deadlineNs.Some? && now >= c.deadlineNs.value {
      DisarmFollows(cfg, c, now, ok);
    } else {
      RenewKeepsCore(cfg, c, leaseMs, now, ok);
    }
  }

  lemma ClaimRlFollows(cfg: CoreConfig, c: Core, now: nat, ok: bool)
    requires CoreInv(cfg, c)
    ensures Follows(cfg, c, ActivateRl(c, now, ok).core)
  {
    OwnerCallFollows(cfg, c, CoreCallActivateRl(now), ok);
  }

  /** A claim of ACT that returns a generation leaves its segment behind. */
  lemma ClaimActOpensSegment(cfg: CoreConfig, c: Core, maxSteps: nat, now: nat, ok: bool)
    requires CoreInv(cfg, c)
    ensures var r := ActivateAct(c, Some(maxSteps as int), now, ok);
      && CoreInv(cfg, r.core)
      && (c.sink.synchronized ==> r.core.sink.synchronized) && (OwnerClosed(c) ==> OwnerClosed(r.core))
      && (r.outcome.Generation? ==>
            r.core.segment.generation == Some(r.outcome.generation) && r.core.segment.maxSteps == Some(maxSteps))
  {
    ActivateActKeepsCore(cfg, c, Some(maxSteps as int), now, ok);
    ActivateActMove(cfg, c, Some(maxSteps as int), now, ok);
  }

  // ---------- ends ----------

  lemma CoordinatorDisarmKeeps(cfg: MissionConfig, m: Mission, e: Env)
    requires Base(cfg, m)
    ensures var t := CoordinatorDisarm(m, e).m;
      && Base(cfg, t) && Follows(cfg.core, m.core, t.core) && t.actGeneration == m.actGeneration
      && (m.core.sink.synchronized ==> OwnerClosed(t.core))
  {
    if !m.ownerDisarmed {
      DisarmFollows(cfg.core, m.core, e.now, e.disarmOk);
    }
  }

  lemma FailedCycleIsOk(cfg: MissionConfig, m: Mission, reason: string)
    requires Base(cfg, m) && Cycles.Busy(m.cycle) && OwnerClosed(m.core) && !Reserved(reason)
    ensures MissionOk(cfg, m.(cycle := Cycles.Fail(m.cycle, reason)))
  {}

  lemma MissionFailKeeps(cfg: MissionConfig, m: Mission, e: Env, reason: string)
    requires MissionOk(cfg, m) && !Reserved(reason)
    ensures MissionOk(cfg, MissionFail(m, e, reason).m)
  {
    if !m.cycle.snapshot.terminal {
      var n := m.(pending := None);
      var step := CoordinatorDisarm(n, e);
      CoordinatorDisarmKeeps(cfg, n, e);
      if !step.raised && Cycles.Busy(step.m.cycle) {
        FailedCycleIsOk(cfg, step.m, reason);
      }
    }
  }

  /** A cycle that has just ended is closed by the coordinator. */
  lemma EndedCycleIsClosed(cfg: MissionConfig, m: Mission, e: Env)
    requires Base(cfg, m) && m.cycle.snapshot.terminal
    ensures MissionOk(cfg, CoordinatorDisarm(m, e).m)
  {
    CoordinatorDisarmKeeps(cfg, m, e);
  }

  lemma RefusalEnds(p: Plan, c: Cycles.Cycle, child: Cycles.Child, reason: string)
    requires Cycles.CycleOk(p, c) && Cycles.Busy(c) && !Reserved(reason)
    ensures var t := Cycles.Record(p, c, Cycles.ChildResult(child, Cycles.ChildOther, reason, true, None));
      t.reply.Nothing? && t.cycle.snapshot.terminal && !Reserved(t.cycle.snapshot.reason)
  {}

  lemma BehaviorRefusedKeeps(cfg: MissionConfig, m: Mission, e: Env, reason: string)
    requires MissionOk(cfg, m) && !Reserved(reason)
    ensures MissionOk(cfg, BehaviorRefused(cfg, m, e, reason).m)
  {
    if Cycles.Busy(m.cycle) {
      RefusalEnds(cfg.plan, m.cycle, ChildOf(m), reason);
      EndedCycleIsClosed(cfg, m.(cycle := Cycles.Record(cfg.plan, m.cycle, RefusalResult(m, reason)).cycle), e);
    }
  }

  // ---------- dispatch ----------

  lemma BookkeepingKeeps(cfg: MissionConfig, m: Mission, pending: Option<Pending>, requests: nat)
    requires MissionOk(cfg, m)
    ensures MissionOk(cfg, m.(pending := pending, requests := requests))
  {}

  lemma SubmitPendingKeeps(cfg: MissionConfig, m: Mission, e: Env)
    requires MissionOk(cfg, m) && EnvOk(e)
    ensures MissionOk(cfg, SubmitPending(cfg, m, e).m)
  {
    BookkeepingKeeps(cfg, m, None, m.requests + 1);
    if e.refusal.Some? {
      BehaviorRefusedKeeps(cfg, Requested(m), e, e.refusal.value);
    }
  }

  lemma DispatchPendingKeeps(cfg: MissionConfig, m: Mission, e: Env)
    requires MissionOk(cfg, m) && EnvOk(e)
    ensures MissionOk(cfg, DispatchPending(cfg, m, e).m)
  {
    if m.pending.None? || m.cycle.snapshot.terminal {
    } else if e.now - m.pending.value.createdNs > cfg.activationTimeoutNs {
      MissionFailKeeps(cfg, m, e, "RL_ACTIVATION_TIMEOUT");
    } else if RlIsActive(m.core.sink) && e.idle {
      SubmitPendingKeeps(cfg, m, e);
    }
  }

  lemma StartBehaviorKeeps(cfg: MissionConfig, m: Mission, e: Env, kind: Kind, target: string)
    requires MissionOk(cfg, m) && EnvOk(e)
    ensures MissionOk(cfg, StartBehavior(cfg, m, e, kind, target).m)
  {
    var t := m.(pending := Some(Pending(kind, target, e.now)));
    BookkeepingKeeps(cfg, m, t.pending, m.requests);
    if m.pending.None? {
      ClaimRlFollows(cfg.core, m.core, e.now, e.ok);
      if RlIsActive(m.core.sink) {
        DispatchPendingKeeps(cfg, t, e);
      } else if !ActivateRl(m.core, e.now, e.ok).outcome.Failed? {
        DispatchPendingKeeps(cfg, t.(core := ActivateRl(m.core, e.now, e.ok).core), e);
      }
    }
  }

  /** The mission is about to enter an ACT stage. */
  lemma StartActKeeps(cfg: MissionConfig, m: Mission, e: Env)
    requires Base(cfg, m) && Cycles.Busy(m.cycle)
    ensures var step := StartAct(m, e, cfg.plan.actMaxSteps);
      Base(cfg, step.m) && (!step.raised ==> MissionOk(cfg, step.m))
  {
    ClaimActOpensSegment(cfg.core, m.core, cfg.plan.actMaxSteps, e.now, e.ok);
  }

  lemma DispatchKeeps(cfg: MissionConfig, m: Mission, e: Env, d: Cycles.Directive)
    requires Base(cfg, m) && EnvOk(e) && Cycles.Busy(m.cycle)
    requires if InActStage(m.cycle) then d == Cycles.RunAct(cfg.plan.actMaxSteps) else !d.RunAct?
    ensures MissionOk(cfg, Dispatch(cfg, m, e, d).m)
  {
    var step := DispatchUnchecked(cfg, m, e, d);
    if d.RunAct? {
      StartActKeeps(cfg, m, e);
    } else {
      BehaviorDispatchKeeps(cfg, m, e, d);
    }
    if step.raised && Cycles.Busy(step.m.cycle) {
      FailedDispatchKeeps(cfg, step.m, e);
    }
  }

  lemma FailedDispatchKeeps(cfg: MissionConfig, m: Mission, e: Env)
    requires Base(cfg, m) && Cycles.Busy(m.cycle)
    ensures MissionOk(cfg, CoordinatorDisarm(m.(cycle := Cycles.Fail(m.cycle, "LOCAL_DISPATCH_FAILED")), e).m)
  {
    EndedCycleIsClosed(cfg, m.(cycle := Cycles.Fail(m.cycle, "LOCAL_DISPATCH_FAILED")), e);
  }

  lemma BehaviorDispatchKeeps(cfg: MissionConfig, m: Mission, e: Env, d: Cycles.Directive)
    requires MissionOk(cfg, m) && EnvOk(e) && !d.RunAct?
    ensures MissionOk(cfg, DispatchUnchecked(cfg, m, e, d).m)
  {
    if d.FollowTo? {
      TargetsHaveArtifacts(cfg.plan);
      var target := FirstTarget(cfg.plan, TargetIds(cfg.plan.profile, cfg.plan.digSequence), d.artifact);
      if target.Some? { StartBehaviorKeeps(cfg, m, e, FollowBehavior, target.value); }
    } else {
      StartBehaviorKeeps(cfg, m, e, FixedBehavior, d.behavior);
    }
  }

  /** Where a recorded result leads the cycle. */
  lemma RecordLeads(p: Plan, c: Cycles.Cycle, r: Cycles.ChildResult)
    requires Cycles.CycleOk(p, c) && Cycles.Busy(c) && !Reserved(r.reason)
    requires r.child.ActChild? ==> Cycles.ActResultFits(p, r)
    ensures var t := Cycles.Record(p, c, r);
      && !Reserved(t.cycle.snapshot.reason) && (t.reply.Go? || t.reply.Nothing?)
      && (t.reply.Nothing? ==> t.cycle.snapshot.terminal)
      && (t.reply.Go? ==>
            && Cycles.Busy(t.cycle)
            && if InActStage(t.cycle) then t.reply.directive == Cycles.RunAct(p.actMaxSteps) else !t.reply.directive.RunAct?)
  {}

  lemma RecordChildKeeps(cfg: MissionConfig, m: Mission, e: Env, r: Cycles.ChildResult)
    requires Base(cfg, m) && EnvOk(e) && !Reserved(r.reason) && (m.cycle.snapshot.terminal ==> OwnerClosed(m.core))
    requires r.child.ActChild? ==> Cycles.ActResultFits(cfg.plan, r)
    ensures MissionOk(cfg, RecordChild(cfg, m, e, r).m)
  {
    var step := Cycles.Record(cfg.plan, m.cycle, r);
    if Cycles.Busy(m.cycle) {
      RecordLeads(cfg.plan, m.cycle, r);
      Cycles.RecordKeepsOk(cfg.plan, m.cycle, r);
      if step.reply.Go? {
        DispatchKeeps(cfg, m.(cycle := step.cycle), e, step.reply.directive);
      } else {
        EndedCycleIsClosed(cfg, m.(cycle := step.cycle), e);
      }
    }
  }
}
