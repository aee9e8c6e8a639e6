/** The input behind MissionRequests: for every plan and every start that is taken
    there is a run in which repeating that start, while its first follow runs, ends
    the run later, after its ACT stage, with a request out of order.  Everything
    happens at time 0. */
module RepeatedStart {
  import opened Wrappers
  import opened ResidentMotion
  import opened ResidentSink
  import opened ResidentIngress
  import opened ResidentCore
  import opened HandoffInvariant
  import opened CoreInvariant
  import opened CorePreservation
  import opened FixedCyclePlans
  import Cycles = FixedCycle
  import opened FixedCycleTheorems
  import opened FixedCycleRuntime
  import opened MissionTheorems
  import opened MissionRequests
  import opened OwnerSteps
  import X = Executor

  /** What the executor is asked, and finds around it. */
  const CONTENTS := X.StartFollow(X.Identity("", 0, ""), true, true)

  const READY := X.Safety(true, true, true, false, false, 0)

  const ALLOWED := X.Env(0, X.Authorized, true)

  const HERE := Env(0, true, true, true, true, None)

  function Does(call: MissionCall): JointCall { MissionDoes(call, CONTENTS, 0, ALLOWED) }

  /** A mission that can run at all: the lease is in its bounds, the executor has a
      sender, and a start is taken. */
  predicate CanRun(cfg: MissionConfig, xc: X.Config, a: Cycles.StartArgs) {
    && PlanOk(cfg.plan) && Startable(cfg.plan, a) && MIN_MISSION_LEASE_MS <= cfg.leaseMs <= MAX_MISSION_LEASE_MS
    && xc.senderConstructed && xc.stateTimeout >= 0
  }

  /** The run stands at a position of its closed form, on a quiet owner. */
  ghost predicate Stands(cfg: MissionConfig, a: Cycles.StartArgs, j: Joint, x: Position) {
    && PlanOk(cfg.plan) && Startable(cfg.plan, a) && ValidAt(cfg.plan.profile, a.cycles, x)
    && Cycles.CycleOk(cfg.plan, j.m.cycle) && j.m.cycle == At(cfg.plan, a, x) && Cycles.Busy(j.m.cycle)
    && Quiet(cfg.core, j.m.core) && j.m.session == a.runId && j.x.safety == Some(READY)
  }

  predicate Idles(j: Joint) { j.m.pending.None? && j.m.requests == 0 && j.x.active.None? }

  predicate Waits(j: Joint) {
    j.m.pending.Some? && j.m.pending.value.createdNs == 0 && j.m.requests == 0 && j.x.active.None?
  }

  // ---------- one call ----------

  lemma OwnerStep(cfg: MissionConfig, xc: X.Config, j: Joint, call: CoreCall)
    requires Cycles.CycleOk(cfg.plan, j.m.cycle)
    ensures JointPerform(cfg, xc, j, Does(CallOwner(call, true))) ==
            j.(m := j.m.(core := PerformCore(cfg.core, j.m.core, call, true).core))
  {}

  /** A follow directive at a position finds its target. */
  lemma FollowIsKnown(p: Plan, a: Cycles.StartArgs, x: Position)
    requires PlanOk(p) && Startable(p, a) && ValidAt(p.profile, a.cycles, x)
    requires OneCycle(p.profile)[x.stage] in {Cycles.FollowDig, Cycles.FollowDump}
    ensures DirectiveAt(p, a, x).FollowTo?
    ensures forall t | t in TargetIds(p.profile, p.digSequence) :: t in p.artifacts
    ensures FirstTarget(p, TargetIds(p.profile, p.digSequence), DirectiveAt(p, a, x).artifact).Some?
  {
    TargetsHaveArtifacts(p);
    var t := if OneCycle(p.profile)[x.stage].FollowDig? then At(p, a, x).snapshot.point else DUMP;
    assert t in TargetIds(p.profile, p.digSequence);
  }

  /** A follow that is dispatched while RL does not hold the machine waits for it. */
  lemma FollowWaits(cfg: MissionConfig, m: Mission, e: Env, d: Cycles.Directive)
    requires Cycles.CycleOk(cfg.plan, m.cycle) && Cycles.Busy(m.cycle) && d.FollowTo? && m.pending.None?
    requires forall t | t in TargetIds(cfg.plan.profile, cfg.plan.digSequence) :: t in cfg.plan.artifacts
    requires FirstTarget(cfg.plan, TargetIds(cfg.plan.profile, cfg.plan.digSequence), d.artifact).Some?
    requires e.now == 0 && e.ok && !RlIsActive(m.core.sink)
    requires var claim := ActivateRl(m.core, 0, true); !claim.outcome.Failed? && !RlIsActive(claim.core.sink)
    ensures var step := Dispatch(cfg, m, e, d); var t := step.m;
      && !step.raised && t == m.(pending := t.pending, core := ActivateRl(m.core, 0, true).core)
      && t.pending.Some? && t.pending.value.createdNs == 0
  {
    BehaviorWaits(cfg, m, e, FirstTarget(cfg.plan, TargetIds(cfg.plan.profile, cfg.plan.digSequence), d.artifact).value);
  }

  lemma BehaviorWaits(cfg: MissionConfig, m: Mission, e: Env, target: string)
    requires Cycles.CycleOk(cfg.plan, m.cycle) && Cycles.Busy(m.cycle) && m.pending.None?
    requires e.now == 0 && e.ok && !RlIsActive(m.core.sink)
    requires var claim := ActivateRl(m.core, 0, true); !claim.outcome.Failed? && !RlIsActive(claim.core.sink)
    ensures var step := StartBehavior(cfg, m, e, FollowBehavior, target);
      !step.raised && step.m == m.(pending := Some(Pending(FollowBehavior, target, 0)), core := ActivateRl(m.core, 0, true).core)
  {}

  // ---------- the first start ----------

  const FIRST_ROW := Telemetry(0, 0, false, false, Some(VelocityReference), ZERO_ACTION, true, false, true, true, 0)

  predicate Opened(cfg: MissionConfig, j: Joint) {
    && j.m == InitialMission(cfg.plan).(core := CoreInitialize(INITIAL_CORE, FIRST_ROW).core)
    && j.x.safety == Some(READY) && j.x.active.None? && j.x.lastNumbers == map[]
  }

  const LOOKING := OthersDo(X.Observe(Some(READY), X.StepRaised, ALLOWED))

  lemma Opens(cfg: MissionConfig, xc: X.Config)
    requires PlanOk(cfg.plan)
    ensures var j := JointPerform(cfg, xc, Joint(InitialMission(cfg.plan), X.INITIAL), LOOKING);
      && Cycles.CycleOk(cfg.plan, j.m.cycle)
      && Opened(cfg, JointPerform(cfg, xc, j, Does(CallOwner(CoreCallInitialize(FIRST_ROW), true))))
  {
    var j := JointPerform(cfg, xc, Joint(InitialMission(cfg.plan), X.INITIAL), LOOKING);
    OwnerStep(cfg, xc, j, CoreCallInitialize(FIRST_ROW));
  }

  /** A renewal of an unexpired lease at time 0. */
  lemma RenewStep(cfg: CoreConfig, c: Core, leaseMs: int)
    requires CoreInv(cfg, c) && Operational(c.sink) && MIN_MISSION_LEASE_MS <= leaseMs <= MAX_MISSION_LEASE_MS
    requires c.sink.telemetry.Some? && c.sink.telemetry.value.receivedNs == 0
    requires (c.sink.log != [] ==> Last(c.sink).at == 0) && (c.deadlineNs.Some? ==> c.deadlineNs.value > 0)
    ensures var step := RenewLease(c, leaseMs, 0, true);
      !step.outcome.Failed? && Quiet(cfg, step.core) && step.core == c.(deadlineNs := step.core.deadlineNs)
  {
    RenewKeepsCore(cfg, c, leaseMs, 0, true);
  }

  /** RL is claimed for the follow of a position, and waits for its echo. */
  ghost predicate Claims(cfg: MissionConfig, a: Cycles.StartArgs, j: Joint, x: Position) {
    && Stands(cfg, a, j, x) && Waits(j) && RlClaimed(j.m.core) && j.m.core.sink.log != [] && !j.m.core.segment.handoffDue
  }

  lemma OpenedCore(cfg: MissionConfig, j: Joint)
    requires PlanOk(cfg.plan) && Opened(cfg, j)
    ensures var c := j.m.core;
      && CoreInv(cfg.core, c) && Operational(c.sink) && c.sink.telemetry == Some(FIRST_ROW) && c.sink.log == []
      && c.deadlineNs.None? && c.sink.authority == INITIAL_AUTHORITY && c.rl == INACTIVE_ADAPTER && c.segment == NO_SEGMENT
    ensures Cycles.CycleOk(cfg.plan, j.m.cycle) && j.m.cycle.snapshot.stage.IdleStage?
  {
    PerformCoreKeeps(cfg.core, INITIAL_CORE, CoreCallInitialize(FIRST_ROW), true);
  }

  /** The mission's own part of the first start. */
  lemma StartDispatches(cfg: MissionConfig, m: Mission, e: Env, a: Cycles.StartArgs, c: Core)
    requires PlanOk(cfg.plan) && Startable(cfg.plan, a) && Cycles.CycleOk(cfg.plan, m.cycle) && m.cycle.snapshot.stage.IdleStage?
    requires e.now == 0 && RenewLease(m.core, cfg.leaseMs, 0, e.disarmOk).core == c
    requires !RenewLease(m.core, cfg.leaseMs, 0, e.disarmOk).outcome.Failed?
    ensures Cycles.CycleOk(cfg.plan, At(cfg.plan, a, Position(0, 0)))
    ensures var u := Cleared(m, a.runId).(core := c, ownerDisarmed := false, cycle := At(cfg.plan, a, Position(0, 0)));
      StartMission(cfg, m, e, a, true) == Dispatch(cfg, u, e, DirectiveAt(cfg.plan, a, Position(0, 0)))
  {
    StartIsAtZero(cfg.plan, m.cycle, a);
    AtIsOk(cfg.plan, a, Position(0, 0));
  }

  lemma FirstStartClaims(cfg: MissionConfig, a: Cycles.StartArgs, m: Mission, e: Env, c: Core)
    requires PlanOk(cfg.plan) && Startable(cfg.plan, a) && Cycles.CycleOk(cfg.plan, m.cycle) && m.cycle.snapshot.stage.IdleStage?
    requires e.now == 0 && e.ok && RenewLease(m.core, cfg.leaseMs, 0, e.disarmOk).core == c && Quiet(cfg.core, c)
    requires !RenewLease(m.core, cfg.leaseMs, 0, e.disarmOk).outcome.Failed?
    requires c.sink.authority == INITIAL_AUTHORITY && c.rl == INACTIVE_ADAPTER && c.segment == NO_SEGMENT
    ensures var step := StartMission(cfg, m, e, a, true); var t := step.m;
      && t.cycle == At(cfg.plan, a, Position(0, 0)) && t.session == a.runId && t.requests == 0
      && t.pending.Some? && t.pending.value.createdNs == 0
      && Quiet(cfg.core, t.core) && RlClaimed(t.core) && t.core.sink.log != [] && !t.core.segment.handoffDue
      && t.core.sink.authority.phase.TargetZeroPending?
  {
    var u := Cleared(m, a.runId).(core := c, ownerDisarmed := false, cycle := At(cfg.plan, a, Position(0, 0)));
    StartDispatches(cfg, m, e, a, c);
    RlRequested(cfg.core, c);
    FollowIsKnown(cfg.plan, a, Position(0, 0));
    FollowWaits(cfg, u, e, DirectiveAt(cfg.plan, a, Position(0, 0)));
  }

  lemma FirstStart(cfg: MissionConfig, xc: X.Config, a: Cycles.StartArgs, j: Joint, t: Joint)
    requires CanRun(cfg, xc, a) && Opened(cfg, j) && Cycles.CycleOk(cfg.plan, j.m.cycle)
    requires t == JointPerform(cfg, xc, j, Does(CallStart(HERE, a, true)))
    ensures Claims(cfg, a, t, Position(0, 0)) && t.m.core.sink.authority.phase.TargetZeroPending? && t.x == j.x
  {
    var call := Does(CallStart(HERE, a, true));
    OpenedStartClaims(cfg, a, j, Coupled(xc, j, call).env);
    assert Coupled(xc, j, call) == CallStart(Coupled(xc, j, call).env, a, true);
  }

  lemma OpenedStartClaims(cfg: MissionConfig, a: Cycles.StartArgs, j: Joint, e: Env)
    requires PlanOk(cfg.plan) && Startable(cfg.plan, a) && MIN_MISSION_LEASE_MS <= cfg.leaseMs <= MAX_MISSION_LEASE_MS
    requires Opened(cfg, j) && Cycles.CycleOk(cfg.plan, j.m.cycle) && e.now == 0 && e.ok && e.disarmOk
    ensures var t := StartMission(cfg, j.m, e, a, true).m;
      && t.requests == 0 && Claims(cfg, a, Joint(t, j.x), Position(0, 0))
      && t.core.sink.authority.phase.TargetZeroPending?
  {
    OpenedCore(cfg, j);
    RenewStep(cfg.core, j.m.core, cfg.leaseMs);
    AtIsOk(cfg.plan, a, Position(0, 0));
    FirstStartClaims(cfg, a, j.m, e, RenewLease(j.m.core, cfg.leaseMs, 0, true).core);
  }

  // ---------- RL ----------

  function EchoCall(j: Joint): JointCall
    requires j.m.core.sink.log != []
  {
    Does(CallOwner(CoreCallObserve(Echo(j.m.core.sink)), true))
  }

  lemma RlReleases(cfg: MissionConfig, xc: X.Config, a: Cycles.StartArgs, j: Joint, x: Position)
    requires Claims(cfg, a, j, x) && j.m.core.sink.authority.phase.TerminalZeroPending?
    ensures var t := JointPerform(cfg, xc, j, EchoCall(j));
      Claims(cfg, a, t, x) && t.m.core.sink.authority.phase.TargetZeroPending? && t.x == j.x
  {
    OwnerStep(cfg, xc, j, CoreCallObserve(Echo(j.m.core.sink)));
    ReleaseStep(cfg.core, j.m.core);
  }

  lemma RlArrives(cfg: MissionConfig, xc: X.Config, a: Cycles.StartArgs, j: Joint, x: Position)
    requires Claims(cfg, a, j, x) && j.m.core.sink.authority.phase.TargetZeroPending?
    ensures var t := JointPerform(cfg, xc, j, EchoCall(j));
      Stands(cfg, a, t, x) && Waits(t) && RlIsActive(t.m.core.sink) && t.x == j.x
  {
    OwnerStep(cfg, xc, j, CoreCallObserve(Echo(j.m.core.sink)));
    ClaimStep(cfg.core, j.m.core);
  }

  /** The tick that sends the waiting follow. */
  lemma TickSubmits(cfg: MissionConfig, m: Mission, e: Env)
    requires Cycles.CycleOk(cfg.plan, m.cycle) && Cycles.Busy(m.cycle) && !InActStage(m.cycle)
    requires Operational(m.core.sink) && RlIsActive(m.core.sink) && e.now == 0 && e.idle
    requires m.pending.Some? && m.pending.value.createdNs == 0
    ensures TickMission(cfg, m, e) == SubmitPending(cfg, m, e)
  {}

  lemma TickSends(cfg: MissionConfig, xc: X.Config, a: Cycles.StartArgs, j: Joint, x: Position, t: Joint)
    requires CanRun(cfg, xc, a) && Stands(cfg, a, j, x) && Waits(j) && RlIsActive(j.m.core.sink) && !InActStage(j.m.cycle)
    requires a.runId !in j.x.lastNumbers && t == JointPerform(cfg, xc, j, Does(MissionCall.CallTick(HERE)))
    ensures Stands(cfg, a, t, x) && t.m.core == j.m.core && t.m.pending.None?
    ensures a.runId in t.x.lastNumbers && t.x.lastNumbers[a.runId] == 1
  {
    FirstTick(cfg, xc, a, j);
    FirstIsAccepted(xc, j.x, NextRequest(j.m, Does(MissionCall.CallTick(HERE))));
  }

  lemma FirstTick(cfg: MissionConfig, xc: X.Config, a: Cycles.StartArgs, j: Joint)
    requires CanRun(cfg, xc, a) && Cycles.CycleOk(cfg.plan, j.m.cycle) && Cycles.Busy(j.m.cycle) && !InActStage(j.m.cycle)
    requires Operational(j.m.core.sink) && RlIsActive(j.m.core.sink) && Waits(j) && j.x.safety == Some(READY)
    requires j.m.session == a.runId && a.runId !in j.x.lastNumbers
    ensures var c := Does(MissionCall.CallTick(HERE));
      JointPerform(cfg, xc, j, c) == Joint(Requested(j.m), Asked(xc, j, c).state)
  {
    var c := Does(MissionCall.CallTick(HERE));
    FirstIsAccepted(xc, j.x, NextRequest(j.m, c));
    TickIsAccepted(cfg, j.m, Coupled(xc, j, c).env);
  }

  lemma TickIsAccepted(cfg: MissionConfig, m: Mission, e: Env)
    requires Cycles.CycleOk(cfg.plan, m.cycle) && Cycles.Busy(m.cycle) && !InActStage(m.cycle)
    requires Operational(m.core.sink) && RlIsActive(m.core.sink) && e.now == 0 && e.idle && e.refusal.None?
    requires m.pending.Some? && m.pending.value.createdNs == 0
    ensures TickMission(cfg, m, e).m == Requested(m)
  {
    TickSubmits(cfg, m, e);
  }

  lemma FirstIsAccepted(xc: X.Config, x: X.State, r: X.Request)
    requires xc.senderConstructed && xc.stateTimeout >= 0 && x.safety == Some(READY) && x.active.None?
    requires r.StartFollow? && r.fieldsOk && r.trajectoryOk && r.id.number == 1 && r.id.session !in x.lastNumbers
    ensures var step := X.Apply(xc, x, X.Handle(r, 0, ALLOWED)); var t := step.state;
      && AnswerOf(step) == None && t.safety == Some(READY)
      && r.id.session in t.lastNumbers && t.lastNumbers[r.id.session] == 1
  {}

  /** The tick that sends it out of order. */
  lemma TickEndsRun(cfg: MissionConfig, xc: X.Config, a: Cycles.StartArgs, j: Joint, x: Position)
    requires Stands(cfg, a, j, x) && Waits(j) && RlIsActive(j.m.core.sink) && !InActStage(j.m.cycle)
    requires a.runId in j.x.lastNumbers && j.x.lastNumbers[a.runId] == 1
    ensures var t := JointPerform(cfg, xc, j, Does(MissionCall.CallTick(HERE))).m;
      t.cycle.snapshot.terminal && t.cycle.snapshot.reason == OUT_OF_ORDER
  {
    var c := Does(MissionCall.CallTick(HERE));
    TickSubmits(cfg, j.m, Coupled(xc, j, c).env);
    StartIsNumbered(xc, j.x, NextRequest(j.m, c), 0, ALLOWED, a.runId);
    SubmitAsks(cfg, j.m, Coupled(xc, j, c).env);
  }

  // ---------- the repeated start, and ACT ----------

  lemma RepeatedStartIsRefused(cfg: MissionConfig, xc: X.Config, a: Cycles.StartArgs, j: Joint, x: Position)
    requires CanRun(cfg, xc, a) && Stands(cfg, a, j, x)
    ensures var t := JointPerform(cfg, xc, j, Does(CallStart(HERE, a, true)));
      && Stands(cfg, a, t, x) && t.m.pending.None? && t.m.requests == 0 && t.x == j.x
      && t.m.core == j.m.core.(deadlineNs := t.m.core.deadlineNs)
  {
    RenewStep(cfg.core, j.m.core, cfg.leaseMs);
  }

  const FINISHING := OthersDo(X.Observe(None, X.Stepped(X.StepCompleted, true, ""), ALLOWED))

  lemma FollowEnds(cfg: MissionConfig, xc: X.Config, j: Joint)
    requires Cycles.CycleOk(cfg.plan, j.m.cycle)
    ensures var t := JointPerform(cfg, xc, j, FINISHING);
      t.m == j.m && t.x.active.None? && t.x.lastNumbers == j.x.lastNumbers && t.x.safety == j.x.safety
  {}

  const REACHED := CallResult(HERE, Cycles.ChildSucceeded, "SUCCEEDED", true)

  /** The ACT stage that follows the first follow. */
  function ActPosition(): Position { Position(0, 1) }

  lemma FollowThenAct(cfg: MissionConfig, a: Cycles.StartArgs, m: Mission, e: Env)
    requires PlanOk(cfg.plan) && Startable(cfg.plan, a) && Cycles.CycleOk(cfg.plan, m.cycle)
    requires m.cycle == At(cfg.plan, a, Position(0, 0)) && e.workerReady && e.idle
    ensures var u := m.(cycle := At(cfg.plan, a, ActPosition()));
      && Cycles.CycleOk(cfg.plan, u.cycle) && InActStage(u.cycle) && Cycles.Busy(u.cycle)
      && BehaviorResult(cfg, m, e, Cycles.ChildSucceeded, "SUCCEEDED", true) ==
         Dispatch(cfg, u, e, Cycles.RunAct(cfg.plan.actMaxSteps))
  {
    var r := Cycles.ChildResult(Cycles.FollowChild, Cycles.ChildSucceeded, "SUCCEEDED", true, None);
    AcceptedResultAdvances(cfg.plan, a, Position(0, 0), r);
    AtIsOk(cfg.plan, a, ActPosition());
  }

  /** ACT is claimed with the plan's budget, and the mission knows its generation. */
  ghost predicate ActStands(cfg: MissionConfig, a: Cycles.StartArgs, j: Joint) {
    && Stands(cfg, a, j, ActPosition()) && InActStage(j.m.cycle) && j.m.pending.None? && j.m.requests == 0
    && j.x.active.None? && j.m.core.sink.log != []
    && j.m.actGeneration.Some? && j.m.actGeneration == j.m.core.segment.generation
    && a.runId in j.x.lastNumbers && j.x.lastNumbers[a.runId] == 1
  }

  lemma ActDispatches(cfg: MissionConfig, m: Mission, e: Env)
    requires Cycles.CycleOk(cfg.plan, m.cycle) && e.workerReady && e.idle && e.now == 0 && e.ok
    requires ActivateAct(m.core, Some(cfg.plan.actMaxSteps as int), 0, true).outcome.Generation?
    ensures var claim := ActivateAct(m.core, Some(cfg.plan.actMaxSteps as int), 0, true);
      var t := Dispatch(cfg, m, e, Cycles.RunAct(cfg.plan.actMaxSteps)).m;
      && t.cycle == m.cycle && t.session == m.session && t.pending == m.pending && t.requests == m.requests
      && t.core == claim.core && t.actGeneration == Some(claim.outcome.generation)
  {}

  lemma ResultClaimsAct(cfg: MissionConfig, a: Cycles.StartArgs, m: Mission, e: Env)
    requires PlanOk(cfg.plan) && Startable(cfg.plan, a) && Cycles.CycleOk(cfg.plan, m.cycle)
    requires m.cycle == At(cfg.plan, a, Position(0, 0)) && e.workerReady && e.idle && e.now == 0 && e.ok
    requires Quiet(cfg.core, m.core) && RlIsActive(m.core.sink)
    ensures var t := BehaviorResult(cfg, m, e, Cycles.ChildSucceeded, "SUCCEEDED", true).m;
      && t.cycle == At(cfg.plan, a, ActPosition()) && Cycles.CycleOk(cfg.plan, t.cycle)
      && InActStage(t.cycle) && Cycles.Busy(t.cycle)
      && t.session == m.session && t.pending == m.pending && t.requests == m.requests
      && Quiet(cfg.core, t.core) && ActClaimed(t.core, cfg.plan.actMaxSteps) && t.core.sink.log != []
      && t.core.sink.authority.phase.TerminalZeroPending? && t.actGeneration == t.core.segment.generation
  {
    FollowThenAct(cfg, a, m, e);
    ActRequested(cfg.core, m.core, cfg.plan.actMaxSteps);
    ActDispatches(cfg, m.(cycle := At(cfg.plan, a, ActPosition())), e);
  }

  lemma ActIsClaimed(cfg: MissionConfig, xc: X.Config, a: Cycles.StartArgs, j: Joint)
    requires CanRun(cfg, xc, a) && Stands(cfg, a, j, Position(0, 0)) && Idles(j) && RlIsActive(j.m.core.sink)
    requires a.runId in j.x.lastNumbers && j.x.lastNumbers[a.runId] == 1
    ensures var t := JointPerform(cfg, xc, j, Does(REACHED));
      && ActStands(cfg, a, t) && ActClaimed(t.m.core, cfg.plan.actMaxSteps)
      && t.m.core.sink.authority.phase.TerminalZeroPending?
  {
    ResultClaimsAct(cfg, a, j.m, Coupled(xc, j, Does(REACHED)).env);
  }

  lemma ActReleases(cfg: MissionConfig, xc: X.Config, a: Cycles.StartArgs, j: Joint, n: nat)
    requires ActStands(cfg, a, j) && ActClaimed(j.m.core, n) && j.m.core.sink.authority.phase.TerminalZeroPending?
    ensures var t := JointPerform(cfg, xc, j, EchoCall(j));
      && ActStands(cfg, a, t) && ActClaimed(t.m.core, n) && t.m.core.sink.authority.phase.TargetZeroPending?
  {
    OwnerStep(cfg, xc, j, CoreCallObserve(Echo(j.m.core.sink)));
    ReleaseStep(cfg.core, j.m.core);
  }

  lemma ActArrives(cfg: MissionConfig, xc: X.Config, a: Cycles.StartArgs, j: Joint, n: nat)
    requires ActStands(cfg, a, j) && ActClaimed(j.m.core, n) && j.m.core.sink.authority.phase.TargetZeroPending?
    ensures var t := JointPerform(cfg, xc, j, EchoCall(j)); ActStands(cfg, a, t) && ActRuns(t.m.core, n, 0)
  {
    OwnerStep(cfg, xc, j, CoreCallObserve(Echo(j.m.core.sink)));
    ClaimStep(cfg.core, j.m.core);
  }

  /** The owner moved on within the ACT stage. */
  lemma ActStandsOn(cfg: MissionConfig, a: Cycles.StartArgs, j: Joint, d: Core)
    requires ActStands(cfg, a, j) && Quiet(cfg.core, d) && d.sink.log != []
    requires d.segment.generation == j.m.core.segment.generation
    ensures ActStands(cfg, a, j.(m := j.m.(core := d)))
  {}

  function RestCall(j: Joint): JointCall { Does(CallOwner(CoreCallSubmitAct(Resting(j.m.core), 0), true)) }

  lemma ActStepsOn(cfg: MissionConfig, a: Cycles.StartArgs, j: Joint, n: nat, k: nat)
    requires ActStands(cfg, a, j) && ActRuns(j.m.core, n, k) && k < n
    ensures var t := j.(m := j.m.(core := SubmitAct(cfg.core, j.m.core, Resting(j.m.core), 0, true).core));
      ActStands(cfg, a, t) && if k + 1 < n then ActRuns(t.m.core, n, k + 1) else ActIsDue(t.m.core, n)
  {
    ActStep(cfg.core, j.m.core, n, k);
    ActStandsOn(cfg, a, j, SubmitAct(cfg.core, j.m.core, Resting(j.m.core), 0, true).core);
  }

  lemma RestStep(cfg: MissionConfig, xc: X.Config, j: Joint)
    requires Cycles.CycleOk(cfg.plan, j.m.cycle)
    ensures JointPerform(cfg, xc, j, RestCall(j)) ==
            j.(m := j.m.(core := SubmitAct(cfg.core, j.m.core, Resting(j.m.core), 0, true).core))
  {
    OwnerStep(cfg, xc, j, CoreCallSubmitAct(Resting(j.m.core), 0));
  }

  lemma ActSteps(cfg: MissionConfig, xc: X.Config, a: Cycles.StartArgs, j: Joint, n: nat, k: nat, t: Joint)
    requires ActStands(cfg, a, j) && ActRuns(j.m.core, n, k) && k < n && t == JointPerform(cfg, xc, j, RestCall(j))
    ensures ActStands(cfg, a, t) && if k + 1 < n then ActRuns(t.m.core, n, k + 1) else ActIsDue(t.m.core, n)
  {
    RestStep(cfg, xc, j);
    ActStepsOn(cfg, a, j, n, k);
  }

  lemma ActCompletes(cfg: MissionConfig, xc: X.Config, a: Cycles.StartArgs, j: Joint, n: nat)
    requires ActStands(cfg, a, j) && ActIsDue(j.m.core, n)
    ensures var t := JointPerform(cfg, xc, j, EchoCall(j));
      && ActStands(cfg, a, t) && ActIsComplete(t.m.core, n) && RlClaimed(t.m.core)
      && t.m.core.sink.authority.phase.TerminalZeroPending?
  {
    OwnerStep(cfg, xc, j, CoreCallObserve(Echo(j.m.core.sink)));
    CompletionStep(cfg.core, j.m.core, n);
  }

  // ---------- the follow after ACT ----------

  function After(p: Plan): Position { Next(p.profile, ActPosition()) }

  lemma ActThenFollow(cfg: MissionConfig, a: Cycles.StartArgs, m: Mission, e: Env)
    requires PlanOk(cfg.plan) && Startable(cfg.plan, a) && Cycles.CycleOk(cfg.plan, m.cycle)
    requires m.cycle == At(cfg.plan, a, ActPosition()) && ActIsComplete(m.core, cfg.plan.actMaxSteps) && e.workerReady
    requires m.core.segment.generation == m.actGeneration
    ensures ValidAt(cfg.plan.profile, a.cycles, After(cfg.plan))
    ensures OneCycle(cfg.plan.profile)[After(cfg.plan).stage] in {Cycles.FollowDig, Cycles.FollowDump}
    ensures var u := m.(cycle := At(cfg.plan, a, After(cfg.plan)), actGeneration := None, actStartedNs := None);
      && Cycles.CycleOk(cfg.plan, u.cycle) && Cycles.Busy(u.cycle) && !InActStage(u.cycle)
      && AdvanceAct(cfg, m, e) == Dispatch(cfg, u, e, DirectiveAt(cfg.plan, a, After(cfg.plan)))
  {
    var r := ActResult(m.core.segment);
    AcceptedResultAdvances(cfg.plan, a, ActPosition(), r);
    AtIsOk(cfg.plan, a, After(cfg.plan));
  }

  /** A claim RL already holds changes nothing. */
  lemma RlIsHeld(c: Core)
    requires RlClaimed(c) && !c.segment.handoffDue
    ensures ActivateRl(c, 0, true).core == c && !ActivateRl(c, 0, true).outcome.Failed?
  {}

  lemma CompletionAdvances(cfg: MissionConfig, a: Cycles.StartArgs, m: Mission, e: Env)
    requires PlanOk(cfg.plan) && Startable(cfg.plan, a) && Cycles.CycleOk(cfg.plan, m.cycle)
    requires m.cycle == At(cfg.plan, a, ActPosition()) && ActIsComplete(m.core, cfg.plan.actMaxSteps)
    requires m.core.segment.generation == m.actGeneration && m.pending.None? && RlClaimed(m.core)
    requires m.core.sink.authority.phase.TerminalZeroPending? && Operational(m.core.sink)
    requires e.workerReady && e.now == 0 && e.ok
    ensures ValidAt(cfg.plan.profile, a.cycles, After(cfg.plan))
    ensures var step := AdvanceAct(cfg, m, e); var t := step.m;
      && !step.raised && t.cycle == At(cfg.plan, a, After(cfg.plan)) && t.session == m.session && t.requests == m.requests
      && t.core == m.core && t.pending.Some? && t.pending.value.createdNs == 0
    ensures Cycles.CycleOk(cfg.plan, At(cfg.plan, a, After(cfg.plan))) && Cycles.Busy(At(cfg.plan, a, After(cfg.plan)))
    ensures !InActStage(At(cfg.plan, a, After(cfg.plan)))
  {
    var u := m.(cycle := At(cfg.plan, a, After(cfg.plan)), actGeneration := None, actStartedNs := None);
    ActThenFollow(cfg, a, m, e);
    RlIsHeld(m.core);
    FollowIsKnown(cfg.plan, a, After(cfg.plan));
    FollowWaits(cfg, u, e, DirectiveAt(cfg.plan, a, After(cfg.plan)));
  }

  /** What still waits for RL is not sent by the same tick. */
  lemma WaitingIsNotSent(cfg: MissionConfig, m: Mission, e: Env)
    requires Cycles.CycleOk(cfg.plan, m.cycle) && m.pending.Some? && m.pending.value.createdNs == 0 && e.now == 0
    requires !RlIsActive(m.core.sink)
    ensures DispatchPending(cfg, m, e) == MissionStep(m, false)
  {}

  lemma CompletionTick(cfg: MissionConfig, a: Cycles.StartArgs, m: Mission, e: Env)
    requires PlanOk(cfg.plan) && Startable(cfg.plan, a) && Cycles.CycleOk(cfg.plan, m.cycle)
    requires m.cycle == At(cfg.plan, a, ActPosition()) && ActIsComplete(m.core, cfg.plan.actMaxSteps)
    requires m.core.segment.generation == m.actGeneration && m.pending.None? && RlClaimed(m.core)
    requires m.core.sink.authority.phase.TerminalZeroPending? && Operational(m.core.sink)
    requires e.workerReady && e.now == 0 && e.ok
    ensures ValidAt(cfg.plan.profile, a.cycles, After(cfg.plan))
    ensures var t := TickMission(cfg, m, e).m;
      && t.cycle == At(cfg.plan, a, After(cfg.plan)) && t.session == m.session && t.requests == m.requests
      && t.core == m.core && t.pending.Some? && t.pending.value.createdNs == 0
    ensures Cycles.CycleOk(cfg.plan, At(cfg.plan, a, After(cfg.plan))) && Cycles.Busy(At(cfg.plan, a, After(cfg.plan)))
    ensures !InActStage(At(cfg.plan, a, After(cfg.plan)))
  {
    CompletionAdvances(cfg, a, m, e);
    WaitingIsNotSent(cfg, AdvanceAct(cfg, m, e).m, e);
  }

  lemma NextFollowWaits(cfg: MissionConfig, xc: X.Config, a: Cycles.StartArgs, j: Joint)
    requires ActStands(cfg, a, j) && ActIsComplete(j.m.core, cfg.plan.actMaxSteps) && RlClaimed(j.m.core)
    requires j.m.core.sink.authority.phase.TerminalZeroPending?
    ensures ValidAt(cfg.plan.profile, a.cycles, After(cfg.plan))
    ensures var t := JointPerform(cfg, xc, j, Does(MissionCall.CallTick(HERE)));
      && Claims(cfg, a, t, After(cfg.plan)) && !InActStage(t.m.cycle) && t.x == j.x
      && t.m.core.sink.authority.phase.TerminalZeroPending?
  {
    CompletionTick(cfg, a, j.m, Coupled(xc, j, Does(MissionCall.CallTick(HERE))).env);
  }

  // ---------- the whole run ----------

  function Again(a: Cycles.StartArgs): JointCall { Does(CallStart(HERE, a, true)) }

  /** The k-th call repeats the start of a run that is active, and none does later. */
  ghost predicate Repeats(cfg: MissionConfig, xc: X.Config, a: Cycles.StartArgs, calls: seq<JointCall>, k: nat)
    requires PlanOk(cfg.plan)
  {
    && k < |calls| && calls[k] == Again(a) && Cycles.Busy(RunJoint(cfg, xc, calls[..k]).m.cycle)
    && RunJoint(cfg, xc, calls[..k]).m.cycle.snapshot.runId == a.runId
    && forall i | k < i < |calls| :: !(calls[i].MissionDoes? && calls[i].call.CallStart?)
  }

  ghost predicate Marked(cfg: MissionConfig, xc: X.Config, a: Cycles.StartArgs, calls: seq<JointCall>, k: Option<nat>)
    requires PlanOk(cfg.plan)
  {
    AllFair({a.runId}, calls) && (k.Some? ==> Repeats(cfg, xc, a, calls, k.value))
  }

  /** One more call. */
  lemma Do(cfg: MissionConfig, xc: X.Config, a: Cycles.StartArgs, calls: seq<JointCall>, k: Option<nat>, c: JointCall)
    returns (more: seq<JointCall>)
    requires PlanOk(cfg.plan) && Marked(cfg, xc, a, calls, k) && Fair({a.runId}, c)
    requires k.Some? ==> !(c.MissionDoes? && c.call.CallStart?)
    ensures Marked(cfg, xc, a, more, k)
    ensures RunJoint(cfg, xc, more) == JointPerform(cfg, xc, RunJoint(cfg, xc, calls), c)
  {
    more := calls + [c];
    assert more[..|calls|] == calls;
    if k.Some? { assert more[..k.value] == calls[..k.value]; }
  }

  /** The start is repeated. */
  lemma DoAgain(cfg: MissionConfig, xc: X.Config, a: Cycles.StartArgs, calls: seq<JointCall>)
    returns (more: seq<JointCall>, k: nat)
    requires PlanOk(cfg.plan) && Marked(cfg, xc, a, calls, None)
    requires Cycles.Busy(RunJoint(cfg, xc, calls).m.cycle) && RunJoint(cfg, xc, calls).m.cycle.snapshot.runId == a.runId
    ensures Marked(cfg, xc, a, more, Some(k))
    ensures RunJoint(cfg, xc, more) == JointPerform(cfg, xc, RunJoint(cfg, xc, calls), Again(a))
  {
    k := |calls|;
    more := calls + [Again(a)];
    assert more[..k] == calls;
  }

  lemma ToFirstClaim(cfg: MissionConfig, xc: X.Config, a: Cycles.StartArgs) returns (calls: seq<JointCall>)
    requires CanRun(cfg, xc, a)
    ensures Marked(cfg, xc, a, calls, None)
    ensures var j := RunJoint(cfg, xc, calls);
      && Claims(cfg, a, j, Position(0, 0)) && j.m.core.sink.authority.phase.TargetZeroPending? && j.x.lastNumbers == map[]
  {
    Opens(cfg, xc);
    calls := Do(cfg, xc, a, [], None, LOOKING);
    calls := Do(cfg, xc, a, calls, None, Does(CallOwner(CoreCallInitialize(FIRST_ROW), true)));
    FirstStart(cfg, xc, a, RunJoint(cfg, xc, calls), JointPerform(cfg, xc, RunJoint(cfg, xc, calls), Again(a)));
    calls := Do(cfg, xc, a, calls, None, Again(a));
  }

  lemma ToFollow(cfg: MissionConfig, xc: X.Config, a: Cycles.StartArgs) returns (calls: seq<JointCall>)
    requires CanRun(cfg, xc, a)
    ensures Marked(cfg, xc, a, calls, None)
    ensures var j := RunJoint(cfg, xc, calls);
      && Stands(cfg, a, j, Position(0, 0)) && RlIsActive(j.m.core.sink)
      && a.runId in j.x.lastNumbers && j.x.lastNumbers[a.runId] == 1
  {
    calls := ToFirstClaim(cfg, xc, a);
    var j := RunJoint(cfg, xc, calls);
    RlArrives(cfg, xc, a, j, Position(0, 0));
    calls := Do(cfg, xc, a, calls, None, EchoCall(j));
    j := RunJoint(cfg, xc, calls);
    TickSends(cfg, xc, a, j, Position(0, 0), JointPerform(cfg, xc, j, Does(MissionCall.CallTick(HERE))));
    calls := Do(cfg, xc, a, calls, None, Does(MissionCall.CallTick(HERE)));
  }

  lemma ToRepeated(cfg: MissionConfig, xc: X.Config, a: Cycles.StartArgs) returns (calls: seq<JointCall>, k: nat)
    requires CanRun(cfg, xc, a)
    ensures Marked(cfg, xc, a, calls, Some(k))
    ensures var j := RunJoint(cfg, xc, calls);
      && Stands(cfg, a, j, Position(0, 0)) && Idles(j) && RlIsActive(j.m.core.sink)
      && a.runId in j.x.lastNumbers && j.x.lastNumbers[a.runId] == 1
  {
    calls := ToFollow(cfg, xc, a);
    RepeatedStartIsRefused(cfg, xc, a, RunJoint(cfg, xc, calls), Position(0, 0));
    calls, k := DoAgain(cfg, xc, a, calls);
    FollowEnds(cfg, xc, RunJoint(cfg, xc, calls));
    calls := Do(cfg, xc, a, calls, Some(k), FINISHING);
  }

  lemma ToAct(cfg: MissionConfig, xc: X.Config, a: Cycles.StartArgs) returns (calls: seq<JointCall>, k: nat)
    requires CanRun(cfg, xc, a)
    ensures Marked(cfg, xc, a, calls, Some(k))
    ensures ActStands(cfg, a, RunJoint(cfg, xc, calls)) && ActRuns(RunJoint(cfg, xc, calls).m.core, cfg.plan.actMaxSteps, 0)
  {
    calls, k := ToRepeated(cfg, xc, a);
    ActIsClaimed(cfg, xc, a, RunJoint(cfg, xc, calls));
    calls := Do(cfg, xc, a, calls, Some(k), Does(REACHED));
    var j := RunJoint(cfg, xc, calls);
    ActReleases(cfg, xc, a, j, cfg.plan.actMaxSteps);
    calls := Do(cfg, xc, a, calls, Some(k), EchoCall(j));
    j := RunJoint(cfg, xc, calls);
    ActArrives(cfg, xc, a, j, cfg.plan.actMaxSteps);
    calls := Do(cfg, xc, a, calls, Some(k), EchoCall(j));
  }

  lemma {:induction false} ToDue(cfg: MissionConfig, xc: X.Config, a: Cycles.StartArgs, before: seq<JointCall>, k: nat,
                                 done: nat)
    returns (calls: seq<JointCall>)
    requires CanRun(cfg, xc, a) && Marked(cfg, xc, a, before, Some(k)) && done < cfg.plan.actMaxSteps
    requires ActStands(cfg, a, RunJoint(cfg, xc, before))
    requires ActRuns(RunJoint(cfg, xc, before).m.core, cfg.plan.actMaxSteps, done)
    ensures Marked(cfg, xc, a, calls, Some(k))
    ensures ActStands(cfg, a, RunJoint(cfg, xc, calls)) && ActIsDue(RunJoint(cfg, xc, calls).m.core, cfg.plan.actMaxSteps)
    decreases cfg.plan.actMaxSteps - done
  {
    var j := RunJoint(cfg, xc, before);
    ActSteps(cfg, xc, a, j, cfg.plan.actMaxSteps, done, JointPerform(cfg, xc, j, RestCall(j)));
    calls := Do(cfg, xc, a, before, Some(k), RestCall(j));
    if done + 1 < cfg.plan.actMaxSteps {
      calls := ToDue(cfg, xc, a, calls, k, done + 1);
    }
  }

  lemma ToNextFollow(cfg: MissionConfig, xc: X.Config, a: Cycles.StartArgs, before: seq<JointCall>, k: nat)
    returns (calls: seq<JointCall>)
    requires CanRun(cfg, xc, a) && Marked(cfg, xc, a, before, Some(k))
    requires ActStands(cfg, a, RunJoint(cfg, xc, before)) && ActIsDue(RunJoint(cfg, xc, before).m.core, cfg.plan.actMaxSteps)
    ensures Marked(cfg, xc, a, calls, Some(k)) && ValidAt(cfg.plan.profile, a.cycles, After(cfg.plan))
    ensures var j := RunJoint(cfg, xc, calls);
      && Claims(cfg, a, j, After(cfg.plan)) && !InActStage(j.m.cycle)
      && j.m.core.sink.authority.phase.TerminalZeroPending?
      && a.runId in j.x.lastNumbers && j.x.lastNumbers[a.runId] == 1
  {
    var j := RunJoint(cfg, xc, before);
    ActCompletes(cfg, xc, a, j, cfg.plan.actMaxSteps);
    calls := Do(cfg, xc, a, before, Some(k), EchoCall(j));
    NextFollowWaits(cfg, xc, a, RunJoint(cfg, xc, calls));
    calls := Do(cfg, xc, a, calls, Some(k), Does(MissionCall.CallTick(HERE)));
  }

  lemma ToEnd(cfg: MissionConfig, xc: X.Config, a: Cycles.StartArgs, before: seq<JointCall>, k: nat)
    returns (calls: seq<JointCall>)
    requires CanRun(cfg, xc, a) && Marked(cfg, xc, a, before, Some(k)) && ValidAt(cfg.plan.profile, a.cycles, After(cfg.plan))
    requires var j := RunJoint(cfg, xc, before);
      && Claims(cfg, a, j, After(cfg.plan)) && !InActStage(j.m.cycle)
      && j.m.core.sink.authority.phase.TerminalZeroPending?
      && a.runId in j.x.lastNumbers && j.x.lastNumbers[a.runId] == 1
    ensures Marked(cfg, xc, a, calls, Some(k))
    ensures var end := RunJoint(cfg, xc, calls).m.cycle.snapshot; end.terminal && end.reason == OUT_OF_ORDER
  {
    var j := RunJoint(cfg, xc, before);
    RlReleases(cfg, xc, a, j, After(cfg.plan));
    calls := Do(cfg, xc, a, before, Some(k), EchoCall(j));
    j := RunJoint(cfg, xc, calls);
    RlArrives(cfg, xc, a, j, After(cfg.plan));
    calls := Do(cfg, xc, a, calls, Some(k), EchoCall(j));
    TickEndsRun(cfg, xc, a, RunJoint(cfg, xc, calls), After(cfg.plan));
    calls := Do(cfg, xc, a, calls, Some(k), Does(MissionCall.CallTick(HERE)));
  }

  /** For every plan and every start that is taken there is a run of this kind: the
      start is repeated once, in the first follow, after its request; no other start
      follows; and the run ends with its next request, found out of order. */
  lemma RepeatedStartEndsRun(cfg: MissionConfig, xc: X.Config, a: Cycles.StartArgs)
    returns (calls: seq<JointCall>, k: nat)
    requires CanRun(cfg, xc, a)
    ensures AllFair({a.runId}, calls) && Repeats(cfg, xc, a, calls, k)
    ensures var end := RunJoint(cfg, xc, calls).m.cycle.snapshot; end.terminal && end.reason == OUT_OF_ORDER
  {
    calls, k := ToAct(cfg, xc, a);
    calls := ToDue(cfg, xc, a, calls, k, 0);
    calls := ToNextFollow(cfg, xc, a, calls, k);
    calls := ToEnd(cfg, xc, a, calls, k);
  }
}
