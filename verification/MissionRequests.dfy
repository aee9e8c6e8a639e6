/** The mission and the behavior executor it asks: when the executor finds a request
    of the mission out of order (resident_fixed_cycle_runtime.py against remote.py).
    start resets the session and the request number of a running mission before it
    is refused, and the executor remembers the numbers of every session. */
module MissionRequests {
  import opened Wrappers
  import opened ResidentSink
  import opened ResidentCore
  import opened FixedCyclePlans
  import Cycles = FixedCycle
  import opened FixedCycleRuntime
  import opened MissionInvariant
  import opened MissionTheorems
  import X = Executor

  // ---------- what one call asks ----------

  const OUT_OF_ORDER := "OUT_OF_ORDER"

  /** The call asked the executor at most once, with the next number; a request found
      out of order ended the run. */
  predicate Asks(m: Mission, t: Mission, refusal: Option<string>) {
    && t.session == m.session && !t.cycle.snapshot.stage.IdleStage?
    && (t.requests == m.requests ||
        (t.requests == m.requests + 1 && t.pending.None? &&
         (refusal == Some(OUT_OF_ORDER) ==> t.cycle.snapshot.terminal && t.cycle.snapshot.reason == OUT_OF_ORDER)))
  }

  predicate Silent(m: Mission, t: Mission) {
    && t.session == m.session && t.requests == m.requests
    && (!m.cycle.snapshot.stage.IdleStage? ==> !t.cycle.snapshot.stage.IdleStage?)
  }

  lemma DisarmIsSilent(m: Mission, e: Env)
    ensures Silent(m, CoordinatorDisarm(m, e).m)
    ensures m.pending.None? ==> CoordinatorDisarm(m, e).m.pending.None?
  {}

  lemma FailIsSilent(m: Mission, e: Env, reason: string)
    ensures Silent(m, MissionFail(m, e, reason).m)
    ensures m.pending.None? ==> MissionFail(m, e, reason).m.pending.None?
  {}

  lemma SubmitAsks(cfg: MissionConfig, m: Mission, e: Env)
    requires Cycles.CycleOk(cfg.plan, m.cycle) && Cycles.Busy(m.cycle)
    ensures Asks(m, SubmitPending(cfg, m, e).m, e.refusal) && SubmitPending(cfg, m, e).m.requests == m.requests + 1
  {
    if e.refusal.Some? {
      var r := Requested(m);
      var step := Cycles.Record(cfg.plan, r.cycle, RefusalResult(r, e.refusal.value));
      DisarmIsSilent(r.(cycle := step.cycle), e);
    }
  }

  lemma DispatchPendingAsks(cfg: MissionConfig, m: Mission, e: Env)
    requires Cycles.CycleOk(cfg.plan, m.cycle) && !m.cycle.snapshot.stage.IdleStage?
    ensures Asks(m, DispatchPending(cfg, m, e).m, e.refusal)
  {
    FailIsSilent(m, e, "RL_ACTIVATION_TIMEOUT");
    if Cycles.Busy(m.cycle) { SubmitAsks(cfg, m, e); }
  }

  lemma StartBehaviorAsks(cfg: MissionConfig, m: Mission, e: Env, kind: Kind, target: string)
    requires Cycles.CycleOk(cfg.plan, m.cycle) && !m.cycle.snapshot.stage.IdleStage?
    ensures Asks(m, StartBehavior(cfg, m, e, kind, target).m, e.refusal)
  {
    var t := m.(pending := Some(Pending(kind, target, e.now)));
    DispatchPendingAsks(cfg, t, e);
    DispatchPendingAsks(cfg, t.(core := ActivateRl(m.core, e.now, e.ok).core), e);
  }

  lemma StartActIsSilent(m: Mission, e: Env, maxSteps: nat)
    ensures Silent(m, StartAct(m, e, maxSteps).m)
  {}

  lemma DispatchAsks(cfg: MissionConfig, m: Mission, e: Env, d: Cycles.Directive)
    requires Cycles.CycleOk(cfg.plan, m.cycle) && !m.cycle.snapshot.stage.IdleStage?
    ensures Asks(m, Dispatch(cfg, m, e, d).m, e.refusal)
  {
    UncheckedAsks(cfg, m, e, d);
    var step := DispatchUnchecked(cfg, m, e, d);
    if Cycles.Busy(step.m.cycle) { FailedDispatchAsks(m, step.m, e); }
  }

  lemma UncheckedAsks(cfg: MissionConfig, m: Mission, e: Env, d: Cycles.Directive)
    requires Cycles.CycleOk(cfg.plan, m.cycle) && !m.cycle.snapshot.stage.IdleStage?
    ensures Asks(m, DispatchUnchecked(cfg, m, e, d).m, e.refusal)
  {
    match d
    case FollowTo(_, artifact) =>
      TargetsHaveArtifacts(cfg.plan);
      var target := FirstTarget(cfg.plan, TargetIds(cfg.plan.profile, cfg.plan.digSequence), artifact);
      if target.Some? { StartBehaviorAsks(cfg, m, e, FollowBehavior, target.value); }
    case RunAct(maxSteps) => StartActIsSilent(m, e, maxSteps);
    case RunFixed(behavior) => StartBehaviorAsks(cfg, m, e, FixedBehavior, behavior);
  }

  /** A dispatch that raised fails a run that is still active. */
  lemma FailedDispatchAsks(m: Mission, t: Mission, e: Env)
    requires Asks(m, t, e.refusal) && Cycles.Busy(t.cycle)
    ensures Asks(m, CoordinatorDisarm(t.(cycle := Cycles.Fail(t.cycle, "LOCAL_DISPATCH_FAILED")), e).m, e.refusal)
  {
    DisarmIsSilent(t.(cycle := Cycles.Fail(t.cycle, "LOCAL_DISPATCH_FAILED")), e);
  }

  lemma RecordLeavesIdle(p: Plan, c: Cycles.Cycle, r: Cycles.ChildResult)
    requires Cycles.CycleOk(p, c) && !c.snapshot.stage.IdleStage?
    ensures !Cycles.Record(p, c, r).cycle.snapshot.stage.IdleStage?
  {}

  lemma RecordChildAsks(cfg: MissionConfig, m: Mission, e: Env, r: Cycles.ChildResult)
    requires Cycles.CycleOk(cfg.plan, m.cycle) && !m.cycle.snapshot.stage.IdleStage?
    ensures Asks(m, RecordChild(cfg, m, e, r).m, e.refusal)
  {
    var step := Cycles.Record(cfg.plan, m.cycle, r);
    RecordLeavesIdle(cfg.plan, m.cycle, r);
    Cycles.RecordKeepsOk(cfg.plan, m.cycle, r);
    match step.reply
    case Refused(_) =>
    case Nothing => DisarmIsSilent(m.(cycle := step.cycle), e);
    case Go(d) => DispatchAsks(cfg, m.(cycle := step.cycle), e, d);
  }

  lemma CompletionAsks(cfg: MissionConfig, m: Mission, e: Env)
    requires Cycles.CycleOk(cfg.plan, m.cycle) && !m.cycle.snapshot.stage.IdleStage?
    ensures var t := m.(actGeneration := None, actStartedNs := None);
      && Asks(m, MissionFail(t, e, "ACT_COMPLETION_REASON_INVALID").m, e.refusal)
      && (m.core.segment.reason.Some? ==> Asks(m, RecordChild(cfg, t, e, ActResult(m.core.segment)).m, e.refusal))
  {
    var t := m.(actGeneration := None, actStartedNs := None);
    FailIsSilent(t, e, "ACT_COMPLETION_REASON_INVALID");
    if m.core.segment.reason.Some? { RecordChildAsks(cfg, t, e, ActResult(m.core.segment)); }
  }

  lemma AdvanceActAsks(cfg: MissionConfig, m: Mission, e: Env)
    requires Cycles.CycleOk(cfg.plan, m.cycle) && !m.cycle.snapshot.stage.IdleStage?
    ensures Asks(m, AdvanceAct(cfg, m, e).m, e.refusal)
  {
    var g := m.core.segment;
    if !e.workerReady {
      FailIsSilent(m, e, "ACT_WORKER_UNAVAILABLE");
    } else if g.generation != m.actGeneration {
      FailIsSilent(m, e, "ACT_GENERATION_MISMATCH");
    } else if g.complete {
      CompletionAsks(cfg, m, e);
    } else if m.actWasActive {
      FailIsSilent(m, e, "ACT_AUTHORITY_LOST");
    } else {
      FailIsSilent(m, e, "ACT_ACTIVATION_TIMEOUT");
    }
  }

  /** Two steps of one call ask at most once between them: after the first request
      nothing is pending. */
  lemma TickAsks(cfg: MissionConfig, m: Mission, e: Env)
    requires Cycles.CycleOk(cfg.plan, m.cycle) && !m.cycle.snapshot.stage.IdleStage?
    ensures Asks(m, TickMission(cfg, m, e).m, e.refusal)
  {
    if Cycles.Busy(m.cycle) {
      if !Operational(m.core.sink) {
        FailIsSilent(m, e, "RESIDENT_CORE_NOT_OPERATIONAL");
      } else if InActStage(m.cycle) {
        AdvanceActAsks(cfg, m, e);
        DispatchPendingAsks(cfg, AdvanceAct(cfg, m, e).m, e);
      } else {
        DispatchPendingAsks(cfg, m, e);
      }
    }
  }

  lemma RefusedIsSilent(cfg: MissionConfig, m: Mission, e: Env, reason: string)
    requires Cycles.CycleOk(cfg.plan, m.cycle)
    ensures Silent(m, BehaviorRefused(cfg, m, e, reason).m)
  {
    var step := Cycles.Record(cfg.plan, m.cycle, RefusalResult(m, reason));
    DisarmIsSilent(m.(cycle := step.cycle), e);
  }

  lemma CancelIsSilent(m: Mission, e: Env)
    ensures Silent(m, CancelMission(m, e).m)
  {
    DisarmIsSilent(m.(pending := None), e);
  }

  function RefusalOf(call: MissionCall): Option<string> { if call.CallOwner? then None else call.env.refusal }

  /** Over all calls but start: a run that exists asks at most once, an idle mission
      not at all. */
  lemma CallAsks(cfg: MissionConfig, m: Mission, call: MissionCall)
    requires Cycles.CycleOk(cfg.plan, m.cycle) && !call.CallStart?
    ensures var t := PerformMission(cfg, m, call).m;
      if m.cycle.snapshot.stage.IdleStage? then Silent(m, t) && t.cycle == m.cycle
      else Asks(m, t, RefusalOf(call))
    ensures var t := PerformMission(cfg, m, call).m;
      && (t.requests > m.requests ==> Cycles.Busy(m.cycle) && !call.CallOwner?)
      && (m.cycle.snapshot.terminal ==> t.cycle.snapshot.terminal)
  {
    if m.cycle.snapshot.stage.IdleStage? {
      IdleIsSilent(cfg, m, call);
    } else {
      RunAsks(cfg, m, call);
      if m.cycle.snapshot.terminal { EndedIsSilent(cfg, m, call); }
    }
  }

  lemma RunAsks(cfg: MissionConfig, m: Mission, call: MissionCall)
    requires Cycles.CycleOk(cfg.plan, m.cycle) && !call.CallStart? && !m.cycle.snapshot.stage.IdleStage?
    ensures Asks(m, PerformMission(cfg, m, call).m, RefusalOf(call))
  {
    match call
    case CallTick(e) => TickAsks(cfg, m, e);
    case CallHeartbeat(e) =>
    case CallCancel(e) => CancelIsSilent(m, e);
    case CallResult(e, outcome, reason, quiescent) =>
      RecordChildAsks(cfg, m, e, Cycles.ChildResult(ChildOf(m), outcome, reason, quiescent, None));
    case CallRefused(e, reason) => RefusedIsSilent(cfg, m, e, reason);
    case CallOwner(_, _) =>
  }

  lemma IdleIsSilent(cfg: MissionConfig, m: Mission, call: MissionCall)
    requires Cycles.CycleOk(cfg.plan, m.cycle) && !call.CallStart? && m.cycle.snapshot.stage.IdleStage?
    ensures var t := PerformMission(cfg, m, call).m; Silent(m, t) && t.cycle == m.cycle
  {
    if call.CallCancel? {
      CancelIsSilent(m, call.env);
    }
  }

  lemma EndedIsSilent(cfg: MissionConfig, m: Mission, call: MissionCall)
    requires Cycles.CycleOk(cfg.plan, m.cycle) && !call.CallStart? && m.cycle.snapshot.terminal
    ensures var t := PerformMission(cfg, m, call).m;
      t.requests == m.requests && t.cycle.snapshot.terminal
  {
    if call.CallCancel? {
      CancelIsSilent(m, call.env);
    }
  }

  /** A start takes the session and begins the numbers anew, taken or not. */
  lemma StartAsks(cfg: MissionConfig, m: Mission, e: Env, a: Cycles.StartArgs, safe: bool)
    requires Cycles.CycleOk(cfg.plan, m.cycle)
    ensures var t := StartMission(cfg, m, e, a, safe).m;
      && t.session == a.runId && t.requests <= 1
      && (!m.cycle.snapshot.stage.IdleStage? || t.requests == 1 ==> !t.cycle.snapshot.stage.IdleStage?)
      && (t.requests == 1 && e.refusal == Some(OUT_OF_ORDER) ==>
            t.cycle.snapshot.terminal && t.cycle.snapshot.reason == OUT_OF_ORDER)
  {
    var renewal := RenewLease(m.core, cfg.leaseMs, e.now, e.disarmOk);
    var step := Cycles.Start(cfg.plan, m.cycle, a, safe);
    var u := Cleared(m, a.runId).(core := renewal.core, ownerDisarmed := false, cycle := step.cycle);
    Cycles.StartKeepsOk(cfg.plan, m.cycle, a, safe);
    if step.reply.Go? && !renewal.outcome.Failed? {
      DispatchAsks(cfg, u, e, step.reply.directive);
    }
  }

  // ---------- the mission beside its executor ----------

  datatype Joint = Joint(m: Mission, x: X.State)

  /** A call of the mission, with the request it would send and what the executor
      finds around it; or a method of the executor called by others. */
  datatype JointCall =
    | MissionDoes(call: MissionCall, contents: X.Request, sink: nat, env: X.Env)
    | OthersDo(op: X.Op)

  /** The identity the next request would carry. */
  function NextId(m: Mission, call: MissionCall, request: string): X.Identity {
    if call.CallStart? then X.Identity(call.args.runId, 1, request)
    else X.Identity(m.session, m.requests + 1, request)
  }

  function NextRequest(m: Mission, c: JointCall): X.Request
    requires c.MissionDoes?
  {
    c.contents.(id := NextId(m, c.call, c.contents.id.request))
  }

  /** What the executor would do if asked. */
  function Asked(xc: X.Config, j: Joint, c: JointCall): X.Step
    requires c.MissionDoes?
  {
    X.Apply(xc, j.x, X.Handle(NextRequest(j.m, c), c.sink, c.env))
  }

  /** The reason of the rejection a step ends with. */
  function AnswerOf(step: X.Step): Option<string> {
    var trace := step.state.trace;
    if step.emitted && trace != [] && trace[|trace| - 1].Emitted? && trace[|trace| - 1].event.kind.Rejected?
    then Some(trace[|trace| - 1].event.kind.reason) else None
  }

  /** The mission finds the executor as it is, and is answered by it. */
  function WithExecutor(call: MissionCall, idle: bool, answer: Option<string>): MissionCall {
    if call.CallOwner? then call else call.(env := call.env.(idle := idle, refusal := answer))
  }

  function Coupled(xc: X.Config, j: Joint, c: JointCall): MissionCall
    requires c.MissionDoes?
  {
    WithExecutor(c.call, j.x.active.None?, AnswerOf(Asked(xc, j, c)))
  }

  /** The call counted a request. */
  predicate Sends(m: Mission, call: MissionCall, t: Mission) { t.requests > if call.CallStart? then 0 else m.requests }

  /** The request of a call that sent one reaches the executor. */
  function After(xc: X.Config, j: Joint, c: JointCall, t: Mission): Joint
    requires c.MissionDoes?
  {
    Joint(t, if Sends(j.m, c.call, t) then Asked(xc, j, c).state else j.x)
  }

  function JointPerform(cfg: MissionConfig, xc: X.Config, j: Joint, c: JointCall): (t: Joint)
    requires Cycles.CycleOk(cfg.plan, j.m.cycle)
    ensures Cycles.CycleOk(cfg.plan, t.m.cycle)
  {
    match c
    case OthersDo(op) => Joint(j.m, X.Apply(xc, j.x, op).state)
    case MissionDoes(_, _, _, _) => After(xc, j, c, PerformMission(cfg, j.m, Coupled(xc, j, c)).m)
  }

  /** The mission sends well-formed starts; runs have names of their own, which no
      other client of the executor uses as a session. */
  predicate Fair(ours: set<string>, c: JointCall) {
    match c
    case OthersDo(op) =>
      && (op.Handle? ==> op.request.id.session !in ours)
      && (op.CancelDirectly? ==> op.request.id.session !in ours)
    case MissionDoes(call, contents, _, _) =>
      && (contents.StartFollow? || contents.StartFixed?) && contents.fieldsOk
      && (call.CallStart? ==> call.args.runId in ours)
  }

  predicate AllFair(ours: set<string>, calls: seq<JointCall>) { forall i | 0 <= i < |calls| :: Fair(ours, calls[i]) }

  ghost function RunJoint(cfg: MissionConfig, xc: X.Config, calls: seq<JointCall>): (j: Joint)
    requires PlanOk(cfg.plan)
    ensures Cycles.CycleOk(cfg.plan, j.m.cycle)
  {
    if calls == [] then Joint(InitialMission(cfg.plan), X.INITIAL)
    else JointPerform(cfg, xc, RunJoint(cfg, xc, calls[..|calls| - 1]), calls[|calls| - 1])
  }

  // ---------- the executor's numbers ----------

  predicate SameNumber(x: X.State, t: X.State, session: string) {
    && (session in t.lastNumbers <==> session in x.lastNumbers)
    && (session in x.lastNumbers ==> t.lastNumbers[session] == x.lastNumbers[session])
  }

  lemma OthersKeepNumbers(xc: X.Config, x: X.State, op: X.Op, session: string)
    requires op.Handle? ==> op.request.id.session != session
    requires op.CancelDirectly? ==> op.request.id.session != session
    ensures SameNumber(x, X.Apply(xc, x, op).state, session)
  {}

  /** A well-formed start is out of order exactly if its number is not new, and
      otherwise its number is remembered, whatever else turns it away. */
  lemma StartIsNumbered(xc: X.Config, x: X.State, r: X.Request, sink: nat, e: X.Env, session: string)
    requires (r.StartFollow? || r.StartFixed?) && r.fieldsOk
    ensures var step := X.Apply(xc, x, X.Handle(r, sink, e));
      && (AnswerOf(step) == Some(OUT_OF_ORDER) <==> !X.InOrder(x, r.id))
      && (session != r.id.session ==> SameNumber(x, step.state, session))
      && r.id.session in step.state.lastNumbers
      && step.state.lastNumbers[r.id.session] ==
         if X.InOrder(x, r.id) then r.id.number else x.lastNumbers[r.id.session]
  {}

  // ---------- over every run ----------

  /** The sessions of the requests the mission has sent. */
  ghost function SentSessions(cfg: MissionConfig, xc: X.Config, calls: seq<JointCall>): set<string>
    requires PlanOk(cfg.plan)
  {
    if calls == [] then {}
    else
      var before := calls[..|calls| - 1];
      SentSessions(cfg, xc, before) + SentBy(RunJoint(cfg, xc, before).m, calls[|calls| - 1], RunJoint(cfg, xc, calls).m)
  }

  function SentBy(m: Mission, c: JointCall, t: Mission): set<string> {
    if c.MissionDoes? && Sends(m, c.call, t) then {t.session} else {}
  }

  /** The run up to its last start, taken or refused. */
  function BeforeLastStart(calls: seq<JointCall>): seq<JointCall> {
    if calls == [] then []
    else
      var n := |calls| - 1;
      if calls[n].MissionDoes? && calls[n].call.CallStart? then calls[..n] else BeforeLastStart(calls[..n])
  }

  /** The executor remembers exactly the sessions the mission has sent requests in,
      and of the current one the number the mission has counted to. */
  ghost predicate Numbered(ours: set<string>, j: Joint, sent: set<string>, earlier: set<string>) {
    && (forall session | session in ours :: session in j.x.lastNumbers <==> session in sent)
    && (forall session | session in ours && session in j.x.lastNumbers :: j.x.lastNumbers[session] >= 1)
    && sent <= ours && earlier <= sent && (sent != {} ==> !j.m.cycle.snapshot.stage.IdleStage?)
    && (!j.m.cycle.snapshot.stage.IdleStage? ==> j.m.session in ours)
    && (j.m.requests == 0 ==> sent == earlier)
    && (j.m.requests > 0 ==>
          && j.m.session in ours && j.m.session in j.x.lastNumbers
          && (j.x.lastNumbers[j.m.session] == j.m.requests || j.m.cycle.snapshot.terminal))
  }

  /** A request is out of order exactly if it is the first since a start, in a session
      that had requests before that start. */
  lemma NumberedDecides(ours: set<string>, j: Joint, sent: set<string>, earlier: set<string>, request: string)
    requires Numbered(ours, j, sent, earlier) && j.m.session in ours
    requires j.m.requests > 0 ==> !j.m.cycle.snapshot.terminal
    ensures !X.InOrder(j.x, X.Identity(j.m.session, j.m.requests + 1, request)) <==>
            j.m.requests == 0 && j.m.session in earlier
  {}

  lemma OthersKeepNumbered(ours: set<string>, xc: X.Config, j: Joint, op: X.Op, sent: set<string>, earlier: set<string>)
    requires Numbered(ours, j, sent, earlier) && Fair(ours, OthersDo(op))
    ensures Numbered(ours, j.(x := X.Apply(xc, j.x, op).state), sent, earlier)
  {
    forall session | session in ours ensures SameNumber(j.x, X.Apply(xc, j.x, op).state, session) {
      OthersKeepNumbers(xc, j.x, op, session);
    }
  }

  /** A request that was sent, seen from both sides. */
  lemma SentKeepsNumbered(ours: set<string>, xc: X.Config, j: Joint, t: Mission, r: X.Request, sink: nat, e: X.Env,
                          sent: set<string>, earlier: set<string>)
    requires (r.StartFollow? || r.StartFixed?) && r.fieldsOk && r.id.session == t.session && r.id.number == t.requests
    requires Numbered(ours, j, sent, earlier) && t.session in ours && t.requests > 0 && !t.cycle.snapshot.stage.IdleStage?
    requires !X.InOrder(j.x, r.id) ==> t.cycle.snapshot.terminal
    ensures Numbered(ours, Joint(t, X.Apply(xc, j.x, X.Handle(r, sink, e)).state), sent + {t.session}, earlier)
  {
    var x := X.Apply(xc, j.x, X.Handle(r, sink, e)).state;
    forall session | session in ours
      ensures session in x.lastNumbers <==> session in sent + {t.session}
      ensures session in x.lastNumbers ==> x.lastNumbers[session] >= 1
    {
      StartIsNumbered(xc, j.x, r, sink, e, session);
    }
    StartIsNumbered(xc, j.x, r, sink, e, t.session);
  }

  lemma CallKeepsNumbered(ours: set<string>, cfg: MissionConfig, xc: X.Config, j: Joint, c: JointCall,
                          sent: set<string>, earlier: set<string>)
    requires Cycles.CycleOk(cfg.plan, j.m.cycle) && c.MissionDoes? && !c.call.CallStart?
    requires Numbered(ours, j, sent, earlier) && Fair(ours, c)
    ensures var t := JointPerform(cfg, xc, j, c);
      Numbered(ours, t, sent + SentBy(j.m, c, t.m), earlier)
  {
    CallAsks(cfg, j.m, Coupled(xc, j, c));
    AskedKeepsNumbered(ours, xc, j, c, PerformMission(cfg, j.m, Coupled(xc, j, c)).m, sent, earlier);
  }

  lemma AskedKeepsNumbered(ours: set<string>, xc: X.Config, j: Joint, c: JointCall, t: Mission,
                           sent: set<string>, earlier: set<string>)
    requires c.MissionDoes? && !c.call.CallStart? && Numbered(ours, j, sent, earlier) && Fair(ours, c)
    requires if j.m.cycle.snapshot.stage.IdleStage? then Silent(j.m, t) && t.cycle == j.m.cycle
             else Asks(j.m, t, RefusalOf(Coupled(xc, j, c)))
    requires t.requests > j.m.requests ==> Cycles.Busy(j.m.cycle) && !c.call.CallOwner?
    requires j.m.cycle.snapshot.terminal ==> t.cycle.snapshot.terminal
    ensures Numbered(ours, After(xc, j, c, t), sent + SentBy(j.m, c, t), earlier)
  {
    if t.requests > j.m.requests {
      AskingKeepsNumbered(ours, xc, j, c, t, sent, earlier);
    } else {
      assert sent + {} == sent;
      SilenceKeepsNumbered(ours, j, t, sent, earlier);
    }
  }

  lemma AskingKeepsNumbered(ours: set<string>, xc: X.Config, j: Joint, c: JointCall, t: Mission,
                            sent: set<string>, earlier: set<string>)
    requires c.MissionDoes? && !c.call.CallStart? && Numbered(ours, j, sent, earlier) && Fair(ours, c)
    requires Asks(j.m, t, AnswerOf(Asked(xc, j, c))) && t.requests > j.m.requests && Cycles.Busy(j.m.cycle)
    ensures Numbered(ours, Joint(t, Asked(xc, j, c).state), sent + {t.session}, earlier)
  {
    var r := NextRequest(j.m, c);
    StartIsNumbered(xc, j.x, r, c.sink, c.env, r.id.session);
    SentKeepsNumbered(ours, xc, j, t, r, c.sink, c.env, sent, earlier);
  }

  lemma SilenceKeepsNumbered(ours: set<string>, j: Joint, t: Mission, sent: set<string>, earlier: set<string>)
    requires Numbered(ours, j, sent, earlier) && t.session == j.m.session && t.requests == j.m.requests
    requires j.m.cycle.snapshot.stage.IdleStage? <==> t.cycle.snapshot.stage.IdleStage?
    requires j.m.cycle.snapshot.terminal ==> t.cycle.snapshot.terminal
    ensures Numbered(ours, j.(m := t), sent, earlier)
  {}

  lemma StartKeepsNumbered(ours: set<string>, cfg: MissionConfig, xc: X.Config, j: Joint, c: JointCall,
                           sent: set<string>, earlier: set<string>)
    requires Cycles.CycleOk(cfg.plan, j.m.cycle) && c.MissionDoes? && c.call.CallStart?
    requires Numbered(ours, j, sent, earlier) && Fair(ours, c)
    ensures var t := JointPerform(cfg, xc, j, c);
      Numbered(ours, t, sent + SentBy(j.m, c, t.m), sent)
  {
    var call := Coupled(xc, j, c);
    var t := PerformMission(cfg, j.m, call).m;
    StartAsks(cfg, j.m, call.env, call.args, call.safeRunId);
    if t.requests > 0 {
      var r := NextRequest(j.m, c);
      StartIsNumbered(xc, j.x, r, c.sink, c.env, r.id.session);
      SentKeepsNumbered(ours, xc, j, t, r, c.sink, c.env, sent, sent);
    } else {
      assert sent + {} == sent;
    }
  }

  lemma {:induction false} EveryJointRunIsNumbered(ours: set<string>, cfg: MissionConfig, xc: X.Config, calls: seq<JointCall>)
    requires PlanOk(cfg.plan) && AllFair(ours, calls)
    ensures Numbered(ours, RunJoint(cfg, xc, calls), SentSessions(cfg, xc, calls),
                     SentSessions(cfg, xc, BeforeLastStart(calls)))
  {
    if calls != [] {
      var before, last := calls[..|calls| - 1], calls[|calls| - 1];
      var j := RunJoint(cfg, xc, before);
      var sent, earlier := SentSessions(cfg, xc, before), SentSessions(cfg, xc, BeforeLastStart(before));
      EveryJointRunIsNumbered(ours, cfg, xc, before);
      if last.OthersDo? {
        OthersKeepNumbered(ours, xc, j, last.op, sent, earlier);
        assert sent + {} == sent;
      } else if last.call.CallStart? {
        StartKeepsNumbered(ours, cfg, xc, j, last, sent, earlier);
      } else {
        CallKeepsNumbered(ours, cfg, xc, j, last, sent, earlier);
      }
    }
  }

  lemma StartDecides(ours: set<string>, cfg: MissionConfig, xc: X.Config, j: Joint, c: JointCall,
                     sent: set<string>, earlier: set<string>)
    requires Cycles.CycleOk(cfg.plan, j.m.cycle) && c.MissionDoes? && c.call.CallStart? && Fair(ours, c)
    requires Numbered(ours, j, sent, earlier) && Sends(j.m, c.call, JointPerform(cfg, xc, j, c).m)
    ensures FoundOutOfOrder(cfg, xc, j, c, sent)
  {
    var call := Coupled(xc, j, c);
    var r := NextRequest(j.m, c);
    StartIsNumbered(xc, j.x, r, c.sink, c.env, r.id.session);
    StartAsks(cfg, j.m, call.env, call.args, call.safeRunId);
  }

  lemma CallDecides(ours: set<string>, cfg: MissionConfig, xc: X.Config, j: Joint, c: JointCall,
                    sent: set<string>, earlier: set<string>)
    requires Cycles.CycleOk(cfg.plan, j.m.cycle) && c.MissionDoes? && !c.call.CallStart? && Fair(ours, c)
    requires Numbered(ours, j, sent, earlier) && Sends(j.m, c.call, JointPerform(cfg, xc, j, c).m)
    ensures FoundOutOfOrder(cfg, xc, j, c, earlier)
  {
    var r := NextRequest(j.m, c);
    StartIsNumbered(xc, j.x, r, c.sink, c.env, r.id.session);
    CallAsks(cfg, j.m, Coupled(xc, j, c));
    NumberedDecides(ours, j, sent, earlier, r.id.request);
  }

  lemma LastStartOf(calls: seq<JointCall>, c: JointCall)
    ensures BeforeLastStart(calls + [c]) ==
            if c.MissionDoes? && c.call.CallStart? then calls else BeforeLastStart(calls)
  {
    assert (calls + [c])[..|calls|] == calls;
  }

  /** The executor finds the request of a call out of order exactly if its number is
      the first and its session is one of these; and then the run ends. */
  predicate FoundOutOfOrder(cfg: MissionConfig, xc: X.Config, j: Joint, c: JointCall, sessions: set<string>)
    requires Cycles.CycleOk(cfg.plan, j.m.cycle) && c.MissionDoes?
  {
    var id := NextRequest(j.m, c).id;
    var t := JointPerform(cfg, xc, j, c).m;
    var found := AnswerOf(Asked(xc, j, c)) == Some(OUT_OF_ORDER);
    && (found <==> id.number == 1 && id.session in sessions)
    && (found ==> t.cycle.snapshot.terminal && t.cycle.snapshot.reason == OUT_OF_ORDER)
  }

  /** Over every run of the mission beside its executor: the executor finds a request
      of the mission out of order exactly if it is the first since a start, and that
      start, refused or not, reused the name of a session that had sent one before.
      It ends the run. */
  lemma {:induction false} OutOfOrderIffSessionReused(ours: set<string>, cfg: MissionConfig, xc: X.Config,
                                                      calls: seq<JointCall>, c: JointCall, j: Joint)
    requires PlanOk(cfg.plan) && AllFair(ours, calls) && Fair(ours, c) && j == RunJoint(cfg, xc, calls)
    requires c.MissionDoes? && Sends(j.m, c.call, JointPerform(cfg, xc, j, c).m)
    ensures FoundOutOfOrder(cfg, xc, j, c, SentSessions(cfg, xc, BeforeLastStart(calls + [c])))
  {
    var sent, earlier := SentSessions(cfg, xc, calls), SentSessions(cfg, xc, BeforeLastStart(calls));
    EveryJointRunIsNumbered(ours, cfg, xc, calls);
    LastStartOf(calls, c);
    if c.call.CallStart? {
      StartDecides(ours, cfg, xc, j, c, sent, earlier);
    } else {
      CallDecides(ours, cfg, xc, j, c, sent, earlier);
    }
  }

  /** Once a request was sent the cycle has left its idle stage, and then every start
      is refused. */
  lemma StartAfterRequestIsRefused(cfg: MissionConfig, m: Mission, e: Env, a: Cycles.StartArgs, safe: bool)
    requires MissionOk(cfg, m) && !m.cycle.snapshot.stage.IdleStage?
    ensures StartMission(cfg, m, e, a, safe).raised && StartMission(cfg, m, e, a, safe).m.cycle == m.cycle
  {}
}
