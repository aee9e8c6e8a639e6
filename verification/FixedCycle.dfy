/** The multi-cycle state machine (edge_runtime/resident_fixed_cycle.py,
    ResidentFixedCycle), as the state every method sees and one step function
    for each method. */
module FixedCycle {
  import opened Wrappers
  import opened FixedCyclePlans

  const MAX_REQUESTED_CYCLES := 9

  datatype Stage =
    | IdleStage | FollowDig | ActDig | ActWholeCycle | FollowDump | ExecuteDump | Completed | Cancelled | FailedStage

  datatype CycleOutcome = NoOutcome | Succeeded | WasCancelled | HasFailed

  datatype Snapshot = Snapshot(
    runId: string,
    profile: Profile,
    stage: Stage,
    requested: nat,
    completed: nat,
    point: string,
    group: string,
    terminal: bool,
    outcome: CycleOutcome,
    reason: string)

  const IDLE_SNAPSHOT := Snapshot("", RegimeFactorized, IdleStage, 0, 0, "", "", false, NoOutcome, "")

  datatype Cycle = Cycle(snapshot: Snapshot, index: nat, points: seq<string>)

  function InitialCycle(p: Plan): Cycle { Cycle(IDLE_SNAPSHOT, 0, p.digSequence) }

  datatype Child = FollowChild | ActChild | FixedActionChild

  datatype ChildOutcome = ChildSucceeded | ChildCancelled | ChildOther

  datatype ChildResult = ChildResult(
    child: Child, outcome: ChildOutcome, reason: string, quiescent: bool, steps: Option<int>)

  datatype Directive =
    | FollowTo(target: string, artifact: Artifact)
    | RunAct(maxSteps: nat)
    | RunFixed(behavior: string)

  datatype CycleError = AlreadyActive | CyclesOutOfRange | UnknownGroup | UnknownPoint | InvalidRunId | NoActiveChild

  datatype CycleReply = Go(directive: Directive) | Nothing | Refused(error: CycleError)

  datatype CycleStep = CycleStep(cycle: Cycle, reply: CycleReply)

  datatype StartArgs = StartArgs(runId: string, cycles: int, point: Option<string>, group: Option<string>)

  predicate Busy(c: Cycle) { !c.snapshot.stage.IdleStage? && !c.snapshot.terminal }

  /** `first or default`: the empty string counts as absent. */
  function OrElse(given: Option<string>, default: string): string {
    if given.Some? && given.value != "" then given.value else default
  }

  function GroupOf(p: Plan, a: StartArgs): string { OrElse(a.group, p.defaultGroup) }

  predicate GroupKnown(p: Plan, a: StartArgs) { GroupOf(p, a) in p.groups && p.groups[GroupOf(p, a)] != [] }

  function FirstPoint(p: Plan, a: StartArgs): string
    requires GroupKnown(p, a)
  {
    OrElse(a.point, p.groups[GroupOf(p, a)][0])
  }

  function IndexOf(points: seq<string>, point: string): (k: nat)
    requires point in points
    ensures k < |points| && points[k] == point && point !in points[..k]
  {
    if points[0] == point then 0
    else
      var k := 1 + IndexOf(points[1..], point);
      assert points[..k] == [points[0]] + points[1..][..k - 1];
      k
  }

  /** The follow directive looks its trajectory up in the plan. */
  predicate Known(p: Plan, target: string) { target in p.artifacts }

  function FollowTarget(p: Plan, target: string): Directive
    requires Known(p, target)
  {
    FollowTo(target, p.artifacts[target])
  }

  function Fail(c: Cycle, reason: string): Cycle {
    c.(snapshot := c.snapshot.(stage := FailedStage, terminal := true, outcome := HasFailed, reason := reason))
  }

  function Cancel(c: Cycle, reason: string): Cycle {
    c.(snapshot := c.snapshot.(stage := Cancelled, terminal := true, outcome := WasCancelled, reason := reason))
  }

  /** What the lookups of one state machine rest on. */
  ghost predicate CycleOk(p: Plan, c: Cycle) {
    && PlanOk(p)
    && c.points != [] && (forall t | t in c.points :: t in p.digSequence)
    && (c.snapshot.stage in {Completed, Cancelled, FailedStage} <==> c.snapshot.terminal)
    && (Busy(c) ==> c.snapshot.profile == p.profile && 1 <= c.snapshot.requested <= MAX_REQUESTED_CYCLES &&
                    c.index < |c.points| && c.snapshot.completed <= c.snapshot.requested &&
                    (!c.snapshot.stage.FollowDig? ==> c.snapshot.completed < c.snapshot.requested) &&
                    c.snapshot.outcome.NoOutcome? &&
                    c.snapshot.reason == "")
    && (c.snapshot.stage in {FollowDump, ExecuteDump} ==> p.profile.RegimeFactorized?)
    && (c.snapshot.stage.ActDig? ==> p.profile.RegimeFactorized?)
    && (c.snapshot.stage.ActWholeCycle? ==> p.profile.ActFullCycle?)
  }

  /** start.  A refused start may already have replaced the active points. */
  function Start(p: Plan, c: Cycle, a: StartArgs, safeRunId: bool): CycleStep
    requires PlanOk(p)
  {
    if Busy(c) then CycleStep(c, Refused(AlreadyActive))
    else if !(1 <= a.cycles <= MAX_REQUESTED_CYCLES) then CycleStep(c, Refused(CyclesOutOfRange))
    else if GroupOf(p, a) !in p.groups then CycleStep(c, Refused(UnknownGroup))
    else
      var points := p.groups[GroupOf(p, a)];
      var first := FirstPoint(p, a);
      if first !in points then CycleStep(c.(points := points), Refused(UnknownPoint))
      else
        var d := Cycle(c.snapshot, IndexOf(points, first), points);
        if !safeRunId then CycleStep(d, Refused(InvalidRunId))
        else
          CycleStep(
            d.(snapshot := Snapshot(a.runId, p.profile, FollowDig, a.cycles, 0, first, GroupOf(p, a), false, NoOutcome, "")),
            Go(FollowTarget(p, first)))
  }

  /** The result that moves a stage forward; the completion of a run is one of
      them.  ACT must have used its whole budget, or stopped early inside it. */
  predicate Accepts(p: Plan, stage: Stage, r: ChildResult) {
    && r.quiescent && r.outcome.ChildSucceeded?
    && match stage
       case FollowDig => r.child.FollowChild? && r.reason == "SUCCEEDED"
       case FollowDump => r.child.FollowChild? && r.reason == "SUCCEEDED"
       case ActDig => r.child.ActChild? && ActResultFits(p, r)
       case ActWholeCycle => r.child.ActChild? && ActResultFits(p, r)
       case ExecuteDump => r.child.FixedActionChild? && r.reason == "SEQUENCE_COMPLETED"
       case _ => false
  }

  predicate ActResultFits(p: Plan, r: ChildResult) {
    || (r.reason == "STEP_BUDGET_REACHED" && r.steps == Some(p.actMaxSteps as int))
    || (r.reason == "DEADZONE_CHUNK_REACHED" && r.steps.Some? && 0 < r.steps.value < p.actMaxSteps)
  }

  /** _return_to_dig_after_completed_cycle */
  function ReturnToDig(p: Plan, c: Cycle): CycleStep
    requires PlanOk(p) && c.points != [] && c.index < |c.points| && forall t | t in c.points :: t in p.digSequence
  {
    var completed := c.snapshot.completed + 1;
    var index := if completed < c.snapshot.requested then (c.index + 1) % |c.points| else c.index;
    var target := c.points[index];
    CycleStep(c.(index := index,
                 snapshot := c.snapshot.(stage := FollowDig, completed := completed, point := target)),
              Go(FollowTarget(p, target)))
  }

  /** record_child_result */
  function Record(p: Plan, c: Cycle, r: ChildResult): CycleStep
    requires CycleOk(p, c)
  {
    if !Busy(c) then CycleStep(c, Refused(NoActiveChild))
    else if !r.quiescent then CycleStep(Fail(c, "CHILD_NOT_QUIESCENT"), Nothing)
    else if r.outcome.ChildCancelled? then CycleStep(Cancel(c, OrElse(Some(r.reason), "CANCELLED")), Nothing)
    else if !r.outcome.ChildSucceeded? then CycleStep(Fail(c, OrElse(Some(r.reason), "CHILD_FAILED")), Nothing)
    else
      var stage := c.snapshot.stage;
      if stage.FollowDig? && r.child.FollowChild? && r.reason == "SUCCEEDED" then
        if c.snapshot.completed == c.snapshot.requested then
          CycleStep(c.(snapshot := c.snapshot.(stage := Completed, terminal := true, outcome := Succeeded,
                                               reason := "SEQUENCE_COMPLETED")), Nothing)
        else
          var act := if p.profile.ActFullCycle? then ActWholeCycle else ActDig;
          CycleStep(c.(snapshot := c.snapshot.(stage := act)), Go(RunAct(p.actMaxSteps)))
      else if (stage.ActDig? || stage.ActWholeCycle?) && r.child.ActChild? then
        if !ActResultFits(p, r) then CycleStep(Fail(c, "ACT_STEP_BUDGET_MISMATCH"), Nothing)
        else if p.profile.ActFullCycle? then ReturnToDig(p, c)
        else CycleStep(c.(snapshot := c.snapshot.(stage := FollowDump)), Go(FollowTarget(p, DUMP)))
      else if stage.FollowDump? && r.child.FollowChild? && r.reason == "SUCCEEDED" then
        CycleStep(c.(snapshot := c.snapshot.(stage := ExecuteDump)), Go(RunFixed("ExecuteDump")))
      else if stage.ExecuteDump? && r.child.FixedActionChild? && r.reason == "SEQUENCE_COMPLETED" then
        ReturnToDig(p, c)
      else CycleStep(Fail(c, "UNEXPECTED_CHILD_RESULT"), Nothing)
  }

  lemma StartKeepsOk(p: Plan, c: Cycle, a: StartArgs, safeRunId: bool)
    requires CycleOk(p, c)
    ensures CycleOk(p, Start(p, c, a, safeRunId).cycle)
  {}

  lemma RecordKeepsOk(p: Plan, c: Cycle, r: ChildResult)
    requires CycleOk(p, c)
    ensures CycleOk(p, Record(p, c, r).cycle)
  {
    var step := Record(p, c, r);
    if Busy(c) {
      if Accepts(p, c.snapshot.stage, r) {
        if !step.cycle.snapshot.terminal {
          assert step.cycle.snapshot.requested == c.snapshot.requested;
        }
      } else {
        assert step.cycle.snapshot.terminal && step.cycle.points == c.points;
      }
    }
  }
}
