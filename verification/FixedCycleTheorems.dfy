/** The shape of every fixed-cycle run: which child follows which, for how long,
    with which target, and when it counts as a success. */
module FixedCycleTheorems {
  import opened Wrappers
  import opened Arithmetic
  import opened FixedCyclePlans
  import opened FixedCycle

  // ---------- the shape, written down independently of the state machine ----------

  function OneCycle(profile: Profile): seq<Stage> {
    if profile.ActFullCycle? then [FollowDig, ActWholeCycle] else [FollowDig, ActDig, FollowDump, ExecuteDump]
  }

  /** The stages of one cycle, repeated, and the return to the dig point. */
  function Shape(profile: Profile, cycles: nat): (s: seq<Stage>)
    ensures |s| == (if profile.ActFullCycle? then 2 * cycles else 4 * cycles) + 1
  {
    if cycles == 0 then [FollowDig] else OneCycle(profile) + Shape(profile, cycles - 1)
  }

  /** In which cycle a run is, and at which of its stages. */
  datatype Position = Position(cycle: nat, stage: nat)

  predicate ValidAt(profile: Profile, cycles: nat, x: Position) {
    x.cycle <= cycles && x.stage < |OneCycle(profile)| && (x.cycle == cycles ==> x.stage == 0)
  }

  function Next(profile: Profile, x: Position): Position {
    if x.stage + 1 < |OneCycle(profile)| then x.(stage := x.stage + 1) else Position(x.cycle + 1, 0)
  }

  /** What is left of the shape after the stage at a position. */
  function Rest(profile: Profile, cycles: nat, x: Position): seq<Stage>
    requires ValidAt(profile, cycles, x)
  {
    if x.cycle == cycles then [] else OneCycle(profile)[x.stage + 1..] + Shape(profile, cycles - x.cycle - 1)
  }

  lemma HeadOfTail(stages: seq<Stage>, k: nat, rest: seq<Stage>)
    requires k < |stages|
    ensures stages[k..] + rest == [stages[k]] + (stages[k + 1..] + rest)
  {}

  /** The end of a cycle is the beginning of what is left. */
  lemma RestWraps(profile: Profile, cycles: nat, k: nat)
    requires k < cycles
    ensures Shape(profile, cycles - k - 1) == [FollowDig] + Rest(profile, cycles, Position(k + 1, 0))
  {}

  lemma RestWithin(profile: Profile, cycles: nat, x: Position)
    requires x.cycle < cycles && x.stage + 1 < |OneCycle(profile)|
    ensures Rest(profile, cycles, x) == [OneCycle(profile)[x.stage + 1]] + Rest(profile, cycles, x.(stage := x.stage + 1))
  {
    var stages, later := OneCycle(profile), Shape(profile, cycles - x.cycle - 1);
    HeadOfTail(stages, x.stage + 1, later);
    assert Rest(profile, cycles, x) == stages[x.stage + 1..] + later;
    assert Rest(profile, cycles, x.(stage := x.stage + 1)) == stages[x.stage + 2..] + later;
  }

  lemma RestAfterCycle(profile: Profile, cycles: nat, x: Position)
    requires x.cycle < cycles && x.stage + 1 == |OneCycle(profile)|
    ensures Rest(profile, cycles, x) == [FollowDig] + Rest(profile, cycles, Position(x.cycle + 1, 0))
  {
    RestWraps(profile, cycles, x.cycle);
    NothingLeft(OneCycle(profile), Shape(profile, cycles - x.cycle - 1));
  }

  lemma RestShrinks(profile: Profile, cycles: nat, x: Position)
    requires ValidAt(profile, cycles, x) && x.cycle < cycles
    ensures ValidAt(profile, cycles, Next(profile, x))
    ensures Rest(profile, cycles, x) ==
            [OneCycle(profile)[Next(profile, x).stage]] + Rest(profile, cycles, Next(profile, x))
  {
    if x.stage + 1 < |OneCycle(profile)| {
      RestWithin(profile, cycles, x);
    } else {
      RestAfterCycle(profile, cycles, x);
    }
  }

  lemma NothingLeft(stages: seq<Stage>, rest: seq<Stage>)
    ensures stages[|stages|..] + rest == rest
  {}

  /** Where the run is after k completed cycles: one dig point further per cycle,
      except after the last. */
  function IndexAfter(first: nat, count: nat, cycles: nat, k: nat): nat
    requires count > 0 && cycles > 0
  {
    (first + IntMin(k, cycles - 1)) % count
  }

  // ---------- one result ----------

  /** A start the state machine takes. */
  predicate Startable(p: Plan, a: StartArgs) {
    && 1 <= a.cycles <= MAX_REQUESTED_CYCLES && GroupKnown(p, a)
    && FirstPoint(p, a) in p.groups[GroupOf(p, a)]
  }

  function PointsOf(p: Plan, a: StartArgs): seq<string>
    requires Startable(p, a)
  {
    p.groups[GroupOf(p, a)]
  }

  function IndexAt(p: Plan, a: StartArgs, k: nat): (i: nat)
    requires Startable(p, a)
    ensures i < |PointsOf(p, a)|
  {
    IndexAfter(IndexOf(PointsOf(p, a), FirstPoint(p, a)), |PointsOf(p, a)|, a.cycles, k)
  }

  /** The running state at a position, in closed form. */
  function At(p: Plan, a: StartArgs, x: Position): Cycle
    requires Startable(p, a) && ValidAt(p.profile, a.cycles, x)
  {
    Cycle(Snapshot(a.runId, p.profile, OneCycle(p.profile)[x.stage], a.cycles, x.cycle,
                   PointsOf(p, a)[IndexAt(p, a, x.cycle)], GroupOf(p, a), false, NoOutcome, ""),
          IndexAt(p, a, x.cycle), PointsOf(p, a))
  }

  /** What the stage at a position is told to do. */
  function DirectiveAt(p: Plan, a: StartArgs, x: Position): Directive
    requires PlanOk(p) && Startable(p, a) && ValidAt(p.profile, a.cycles, x)
  {
    match OneCycle(p.profile)[x.stage]
    case FollowDig => FollowTarget(p, At(p, a, x).snapshot.point)
    case FollowDump => FollowTarget(p, DUMP)
    case ExecuteDump => RunFixed("ExecuteDump")
    case _ => RunAct(p.actMaxSteps)
  }

  lemma StartIsAtZero(p: Plan, c: Cycle, a: StartArgs)
    requires CycleOk(p, c) && !Busy(c)
    ensures Start(p, c, a, true).reply.Go? <==> Startable(p, a)
    ensures Startable(p, a) ==>
              Start(p, c, a, true) == CycleStep(At(p, a, Position(0, 0)), Go(DirectiveAt(p, a, Position(0, 0))))
  {
    if Startable(p, a) {
      var k := IndexOf(PointsOf(p, a), FirstPoint(p, a));
      RemainderIsUnique(k, |PointsOf(p, a)|, 0, k);
    }
  }

  lemma NextIndex(p: Plan, a: StartArgs, k: nat)
    requires Startable(p, a) && k < a.cycles
    ensures IndexAt(p, a, k + 1) ==
            if k + 1 < a.cycles then (IndexAt(p, a, k) + 1) % |PointsOf(p, a)| else IndexAt(p, a, k)
  {
    ModSuccessor(IndexOf(PointsOf(p, a), FirstPoint(p, a)) + k, |PointsOf(p, a)|);
  }

  lemma AtIsOk(p: Plan, a: StartArgs, x: Position)
    requires PlanOk(p) && Startable(p, a) && ValidAt(p.profile, a.cycles, x)
    ensures CycleOk(p, At(p, a, x))
  {}

  /** The closed form moves on to the next position, or the run completes at the
      last one. */
  predicate Advances(p: Plan, a: StartArgs, x: Position, r: ChildResult)
    requires PlanOk(p) && Startable(p, a) && ValidAt(p.profile, a.cycles, x) && CycleOk(p, At(p, a, x))
  {
    var step := Record(p, At(p, a, x), r);
    if x.cycle == a.cycles then
      step == CycleStep(At(p, a, x).(snapshot := At(p, a, x).snapshot.(
        stage := Completed, terminal := true, outcome := Succeeded, reason := "SEQUENCE_COMPLETED")), Nothing)
    else
      && ValidAt(p.profile, a.cycles, Next(p.profile, x))
      && step == CycleStep(At(p, a, Next(p.profile, x)), Go(DirectiveAt(p, a, Next(p.profile, x))))
  }

  lemma FollowAdvances(p: Plan, a: StartArgs, x: Position, r: ChildResult)
    requires PlanOk(p) && Startable(p, a) && ValidAt(p.profile, a.cycles, x)
    requires CycleOk(p, At(p, a, x)) && Accepts(p, OneCycle(p.profile)[x.stage], r)
    requires OneCycle(p.profile)[x.stage] in {FollowDig, FollowDump}
    ensures Advances(p, a, x, r)
  {}

  lemma ActAdvances(p: Plan, a: StartArgs, x: Position, r: ChildResult)
    requires PlanOk(p) && Startable(p, a) && ValidAt(p.profile, a.cycles, x)
    requires CycleOk(p, At(p, a, x)) && Accepts(p, OneCycle(p.profile)[x.stage], r)
    requires OneCycle(p.profile)[x.stage].ActDig?
    ensures Advances(p, a, x, r)
  {}

  lemma CycleAdvances(p: Plan, a: StartArgs, x: Position, r: ChildResult)
    requires PlanOk(p) && Startable(p, a) && ValidAt(p.profile, a.cycles, x)
    requires CycleOk(p, At(p, a, x)) && Accepts(p, OneCycle(p.profile)[x.stage], r)
    requires OneCycle(p.profile)[x.stage] in {ActWholeCycle, ExecuteDump}
    ensures Advances(p, a, x, r)
  {
    NextIndex(p, a, x.cycle);
  }

  /** An accepted result moves the closed form on to the next position, or
      completes the run at the last one. */
  lemma AcceptedResultAdvances(p: Plan, a: StartArgs, x: Position, r: ChildResult)
    requires PlanOk(p) && Startable(p, a) && ValidAt(p.profile, a.cycles, x)
    requires CycleOk(p, At(p, a, x)) && Accepts(p, OneCycle(p.profile)[x.stage], r)
    ensures Advances(p, a, x, r)
  {
    var stage := OneCycle(p.profile)[x.stage];
    if stage in {FollowDig, FollowDump} {
      FollowAdvances(p, a, x, r);
    } else if stage.ActDig? {
      ActAdvances(p, a, x, r);
    } else {
      CycleAdvances(p, a, x, r);
    }
  }

  /** Any other result ends the run, without success and without moving on. */
  lemma OtherResultEnds(p: Plan, c: Cycle, r: ChildResult)
    requires CycleOk(p, c) && Busy(c) && !Accepts(p, c.snapshot.stage, r)
    ensures var step := Record(p, c, r);
      && step.reply == Nothing && step.cycle.snapshot.terminal
      && step.cycle.snapshot.outcome in {HasFailed, WasCancelled}
      && (step.cycle.snapshot.outcome.WasCancelled? <==> r.quiescent && r.outcome.ChildCancelled?)
      && step.cycle.snapshot.completed == c.snapshot.completed && step.cycle.snapshot.point == c.snapshot.point
  {}

  /** A terminal run takes no result any more. */
  lemma TerminalIsAbsorbing(p: Plan, c: Cycle, r: ChildResult)
    requires CycleOk(p, c) && c.snapshot.terminal
    ensures Record(p, c, r) == CycleStep(c, Refused(NoActiveChild))
  {}

  // ---------- whole runs ----------

  /** The cycle after some results, and the stages it has sent to children. */
  datatype Trace = Trace(cycle: Cycle, stages: seq<Stage>)

  function Extended(t: Trace, step: CycleStep): Trace {
    Trace(step.cycle, t.stages + if step.reply.Go? then [step.cycle.snapshot.stage] else [])
  }

  ghost function RunResults(p: Plan, a: StartArgs, results: seq<ChildResult>): Trace
    requires PlanOk(p) && Startable(p, a)
    ensures CycleOk(p, RunResults(p, a, results).cycle)
  {
    if results == [] then
      AtIsOk(p, a, Position(0, 0));
      Trace(At(p, a, Position(0, 0)), [FollowDig])
    else
      var before := RunResults(p, a, results[..|results| - 1]);
      RecordKeepsOk(p, before.cycle, results[|results| - 1]);
      Extended(before, Record(p, before.cycle, results[|results| - 1]))
  }

  /** Every stage but the last was answered by a result it accepts. */
  predicate AllAccepted(p: Plan, stages: seq<Stage>, results: seq<ChildResult>) {
    |stages| <= |results| + 1 && forall i | 0 <= i < |stages| - 1 :: Accepts(p, stages[i], results[i])
  }

  /** The run stands at a position: it still runs there, completed there, or
      ended there on the first result it could not accept. */
  ghost predicate StandsAt(p: Plan, a: StartArgs, results: seq<ChildResult>, t: Trace, x: Position) {
    && PlanOk(p) && Startable(p, a) && ValidAt(p.profile, a.cycles, x)
    && t.stages != [] && t.stages + Rest(p.profile, a.cycles, x) == Shape(p.profile, a.cycles)
    && t.stages[|t.stages| - 1] == OneCycle(p.profile)[x.stage]
    && AllAccepted(p, t.stages, results)
    && t.cycle.snapshot.completed == x.cycle && t.cycle.snapshot.point == At(p, a, x).snapshot.point
    && if |t.stages| == |results| + 1 then t.cycle == At(p, a, x)
       else if Accepts(p, OneCycle(p.profile)[x.stage], results[|t.stages| - 1]) then
         x.cycle == a.cycles && t.cycle.snapshot.terminal && t.cycle.snapshot.outcome.Succeeded?
       else t.cycle.snapshot.terminal && t.cycle.snapshot.outcome in {HasFailed, WasCancelled}
  }

  lemma NextStands(p: Plan, a: StartArgs, before: seq<ChildResult>, r: ChildResult, t: Trace, x: Position, y: Position)
    requires StandsAt(p, a, before, t, x) && |t.stages| == |before| + 1 && Accepts(p, OneCycle(p.profile)[x.stage], r)
    requires ValidAt(p.profile, a.cycles, y)
    requires Rest(p.profile, a.cycles, x) == [OneCycle(p.profile)[y.stage]] + Rest(p.profile, a.cycles, y)
    ensures StandsAt(p, a, before + [r], Trace(At(p, a, y), t.stages + [OneCycle(p.profile)[y.stage]]), y)
  {
    MovedStages(t.stages, OneCycle(p.profile)[y.stage], Rest(p.profile, a.cycles, y));
    OneMoreAccepted(p, t.stages, before, OneCycle(p.profile)[y.stage], r);
  }

  lemma MovedStages(stages: seq<Stage>, next: Stage, rest: seq<Stage>)
    ensures (stages + [next]) + rest == stages + ([next] + rest)
  {}

  lemma OneMoreAccepted(p: Plan, stages: seq<Stage>, before: seq<ChildResult>, next: Stage, r: ChildResult)
    requires AllAccepted(p, stages, before) && |stages| == |before| + 1 && Accepts(p, stages[|stages| - 1], r)
    ensures AllAccepted(p, stages + [next], before + [r])
  {
    var more := stages + [next];
    assert forall i | 0 <= i < |before| :: (before + [r])[i] == before[i] && more[i] == stages[i];
  }

  lemma RunAdvances(p: Plan, a: StartArgs, before: seq<ChildResult>, r: ChildResult, t: Trace, x: Position)
    requires StandsAt(p, a, before, t, x) && CycleOk(p, t.cycle) && |t.stages| == |before| + 1
    requires Accepts(p, OneCycle(p.profile)[x.stage], r) && x.cycle < a.cycles
    ensures StandsAt(p, a, before + [r], Extended(t, Record(p, t.cycle, r)), Next(p.profile, x))
  {
    AcceptedResultAdvances(p, a, x, r);
    RestShrinks(p.profile, a.cycles, x);
    NextStands(p, a, before, r, t, x, Next(p.profile, x));
  }

  lemma RunEnds(p: Plan, a: StartArgs, before: seq<ChildResult>, r: ChildResult, t: Trace, x: Position)
    requires StandsAt(p, a, before, t, x) && CycleOk(p, t.cycle) && |t.stages| == |before| + 1
    requires !Accepts(p, OneCycle(p.profile)[x.stage], r) || x.cycle == a.cycles
    ensures StandsAt(p, a, before + [r], Extended(t, Record(p, t.cycle, r)), x)
  {
    assert t.stages + [] == t.stages;
    if Accepts(p, OneCycle(p.profile)[x.stage], r) {
      AcceptedResultAdvances(p, a, x, r);
    } else {
      OtherResultEnds(p, t.cycle, r);
    }
    EndStands(p, a, before, r, t, x, Record(p, t.cycle, r).cycle);
  }

  lemma EndStands(p: Plan, a: StartArgs, before: seq<ChildResult>, r: ChildResult, t: Trace, x: Position, end: Cycle)
    requires StandsAt(p, a, before, t, x) && |t.stages| == |before| + 1
    requires end.snapshot.completed == x.cycle && end.snapshot.point == At(p, a, x).snapshot.point && end.snapshot.terminal
    requires if Accepts(p, OneCycle(p.profile)[x.stage], r) then x.cycle == a.cycles && end.snapshot.outcome.Succeeded?
             else end.snapshot.outcome in {HasFailed, WasCancelled}
    ensures StandsAt(p, a, before + [r], Trace(end, t.stages), x)
  {
    var more := before + [r];
    assert more[|t.stages| - 1] == r;
    assert forall i | 0 <= i < |before| :: more[i] == before[i];
  }

  lemma StandsOn(p: Plan, a: StartArgs, before: seq<ChildResult>, r: ChildResult, t: Trace, x: Position)
    requires StandsAt(p, a, before, t, x) && |t.stages| < |before| + 1
    ensures StandsAt(p, a, before + [r], t, x)
  {
    var more := before + [r];
    assert forall i | 0 <= i < |before| :: more[i] == before[i];
    assert AllAccepted(p, t.stages, more);
  }

  lemma RunStays(p: Plan, a: StartArgs, before: seq<ChildResult>, r: ChildResult, t: Trace, x: Position)
    requires StandsAt(p, a, before, t, x) && CycleOk(p, t.cycle) && |t.stages| < |before| + 1
    ensures StandsAt(p, a, before + [r], Extended(t, Record(p, t.cycle, r)), x)
  {
    TerminalIsAbsorbing(p, t.cycle, r);
    assert t.stages + [] == t.stages;
    StandsOn(p, a, before, r, t, x);
  }

  lemma RunMoves(p: Plan, a: StartArgs, before: seq<ChildResult>, r: ChildResult, t: Trace, x: Position)
    returns (y: Position)
    requires StandsAt(p, a, before, t, x) && CycleOk(p, t.cycle)
    ensures StandsAt(p, a, before + [r], Extended(t, Record(p, t.cycle, r)), y)
  {
    y := x;
    if |t.stages| < |before| + 1 {
      RunStays(p, a, before, r, t, x);
    } else if Accepts(p, OneCycle(p.profile)[x.stage], r) && x.cycle < a.cycles {
      RunAdvances(p, a, before, r, t, x);
      y := Next(p.profile, x);
    } else {
      RunEnds(p, a, before, r, t, x);
    }
  }

  lemma {:induction false} StartStands(p: Plan, a: StartArgs)
    requires PlanOk(p) && Startable(p, a)
    ensures StandsAt(p, a, [], Trace(At(p, a, Position(0, 0)), [FollowDig]), Position(0, 0))
  {}

  lemma RunUnfolds(p: Plan, a: StartArgs, before: seq<ChildResult>, r: ChildResult)
    requires PlanOk(p) && Startable(p, a)
    ensures RunResults(p, a, before + [r]) ==
            Extended(RunResults(p, a, before), Record(p, RunResults(p, a, before).cycle, r))
  {}

  lemma {:induction false} RunStands(p: Plan, a: StartArgs, results: seq<ChildResult>) returns (x: Position)
    requires PlanOk(p) && Startable(p, a)
    ensures StandsAt(p, a, results, RunResults(p, a, results), x)
  {
    if results == [] {
      StartStands(p, a);
      x := Position(0, 0);
    } else {
      var before, r := results[..|results| - 1], results[|results| - 1];
      assert results == before + [r];
      var y := RunStands(p, a, before);
      x := RunStep(p, a, before, r, y);
    }
  }

  lemma RunStep(p: Plan, a: StartArgs, before: seq<ChildResult>, r: ChildResult, y: Position) returns (x: Position)
    requires PlanOk(p) && Startable(p, a) && StandsAt(p, a, before, RunResults(p, a, before), y)
    ensures StandsAt(p, a, before + [r], RunResults(p, a, before + [r]), x)
  {
    x := RunMoves(p, a, before, r, RunResults(p, a, before), y);
    RunUnfolds(p, a, before, r);
  }

  /** Over any results: the children of a run are a prefix of the shape, so it
      ends within 4R + 1 (or 2R + 1) of them; after k completed cycles the dig
      point is seq[(first + min(k, R - 1)) mod n]; and it succeeds exactly when
      every stage of the shape was answered by a result it accepts. */
  lemma EveryRunFollowsTheShape(p: Plan, a: StartArgs, results: seq<ChildResult>)
    requires PlanOk(p) && Startable(p, a)
    ensures var t := RunResults(p, a, results); var shape := Shape(p.profile, a.cycles); var points := PointsOf(p, a);
      && t.stages <= shape
      && t.cycle.snapshot.completed <= a.cycles
      && t.cycle.snapshot.point ==
         points[IndexAfter(IndexOf(points, FirstPoint(p, a)), |points|, a.cycles, t.cycle.snapshot.completed)]
      && (t.cycle.snapshot.outcome.Succeeded? <==>
          |shape| <= |results| && forall i | 0 <= i < |shape| :: Accepts(p, shape[i], results[i]))
      && (t.cycle.snapshot.outcome.Succeeded? ==> t.stages == shape && t.cycle.snapshot.completed == a.cycles)
      && (|results| >= |shape| ==> t.cycle.snapshot.terminal)
  {
    var x := RunStands(p, a, results);
    ShapeDecides(p, a, results, RunResults(p, a, results), x);
  }

  lemma ShapeDecides(p: Plan, a: StartArgs, results: seq<ChildResult>, t: Trace, x: Position)
    requires StandsAt(p, a, results, t, x)
    ensures var shape := Shape(p.profile, a.cycles);
      && t.stages <= shape
      && (t.cycle.snapshot.outcome.Succeeded? <==>
          |shape| <= |results| && forall i | 0 <= i < |shape| :: Accepts(p, shape[i], results[i]))
      && (t.cycle.snapshot.outcome.Succeeded? ==> t.stages == shape && x.cycle == a.cycles)
      && (|results| >= |shape| ==> t.cycle.snapshot.terminal)
  {}

  /** Results that accept the stages of the shape one by one lead the run along it:
      after n of them it has sent out the first n + 1 stages. */
  lemma AcceptedPrefixFollowsShape(p: Plan, a: StartArgs, results: seq<ChildResult>)
    requires PlanOk(p) && Startable(p, a)
    requires var shape := Shape(p.profile, a.cycles);
      |results| < |shape| && forall i | 0 <= i < |results| :: Accepts(p, shape[i], results[i])
    ensures RunResults(p, a, results).stages == Shape(p.profile, a.cycles)[..|results| + 1]
    ensures !RunResults(p, a, results).cycle.snapshot.terminal
  {
    var x := RunStands(p, a, results);
    PrefixStands(p, a, results, RunResults(p, a, results), x);
  }

  lemma PrefixStands(p: Plan, a: StartArgs, results: seq<ChildResult>, t: Trace, x: Position)
    requires StandsAt(p, a, results, t, x)
    requires var shape := Shape(p.profile, a.cycles);
      |results| < |shape| && forall i | 0 <= i < |results| :: Accepts(p, shape[i], results[i])
    ensures t.stages == Shape(p.profile, a.cycles)[..|results| + 1] && t.cycle == At(p, a, x)
  {
    assert t.stages[|t.stages| - 1] == Shape(p.profile, a.cycles)[|t.stages| - 1];
  }

  /** One result that each stage accepts. */
  function Accepting(p: Plan, stage: Stage): ChildResult {
    match stage
    case ActDig => ChildResult(ActChild, ChildSucceeded, "STEP_BUDGET_REACHED", true, Some(p.actMaxSteps as int))
    case ActWholeCycle => ChildResult(ActChild, ChildSucceeded, "STEP_BUDGET_REACHED", true, Some(p.actMaxSteps as int))
    case ExecuteDump => ChildResult(FixedActionChild, ChildSucceeded, "SEQUENCE_COMPLETED", true, None)
    case _ => ChildResult(FollowChild, ChildSucceeded, "SUCCEEDED", true, None)
  }

  function AcceptingAll(p: Plan, stages: seq<Stage>): (results: seq<ChildResult>)
    ensures |results| == |stages| && forall i | 0 <= i < |stages| :: results[i] == Accepting(p, stages[i])
  {
    seq(|stages|, i requires 0 <= i < |stages| => Accepting(p, stages[i]))
  }

  lemma {:induction false} ShapeIsAcceptable(p: Plan, cycles: nat, i: nat)
    requires i < |Shape(p.profile, cycles)|
    ensures Accepts(p, Shape(p.profile, cycles)[i], Accepting(p, Shape(p.profile, cycles)[i]))
  {
    if cycles > 0 && i >= |OneCycle(p.profile)| {
      ShapeIsAcceptable(p, cycles - 1, i - |OneCycle(p.profile)|);
    }
  }

  lemma AcceptingAllAccepted(p: Plan, a: StartArgs, results: seq<ChildResult>)
    requires Startable(p, a)
    requires |results| <= |Shape(p.profile, a.cycles)| && results == AcceptingAll(p, Shape(p.profile, a.cycles)[..|results|])
    ensures forall i | 0 <= i < |results| :: Accepts(p, Shape(p.profile, a.cycles)[i], results[i])
  {
    forall i | 0 <= i < |results| ensures Accepts(p, Shape(p.profile, a.cycles)[i], results[i]) {
      ShapeIsAcceptable(p, a.cycles, i);
    }
  }

  /** Every start the state machine takes can succeed, and can walk the shape up to
      any of its stages: with one accepting result per stage. */
  lemma EveryStageIsReachable(p: Plan, a: StartArgs, n: nat)
    requires PlanOk(p) && Startable(p, a) && n <= |Shape(p.profile, a.cycles)|
    ensures var shape := Shape(p.profile, a.cycles);
      var t := RunResults(p, a, AcceptingAll(p, shape[..n]));
      if n < |shape| then t.stages == shape[..n + 1] && !t.cycle.snapshot.terminal
      else t.stages == shape && t.cycle.snapshot.outcome.Succeeded?
  {
    var shape := Shape(p.profile, a.cycles);
    var results := AcceptingAll(p, shape[..n]);
    AcceptingAllAccepted(p, a, results);
    if n < |shape| {
      AcceptedPrefixFollowsShape(p, a, results);
    } else {
      EveryRunFollowsTheShape(p, a, results);
    }
  }

  /** Accepting results for all but the last stage of the shape. */
  function CompletingResults(p: Plan, a: StartArgs): seq<ChildResult>
    requires Startable(p, a)
  {
    var shape := Shape(p.profile, a.cycles);
    AcceptingAll(p, shape[..|shape| - 1])
  }

  lemma {:induction false} CompletingWalksShape(p: Plan, a: StartArgs, results: seq<ChildResult>)
    requires PlanOk(p) && Startable(p, a) && results == CompletingResults(p, a)
    ensures |results| == |Shape(p.profile, a.cycles)| - 1
    ensures RunResults(p, a, results).stages == Shape(p.profile, a.cycles)
  {
    AcceptingAllAccepted(p, a, results);
    AcceptedPrefixFollowsShape(p, a, results);
  }

  /** Completing every requested cycle is not yet success: every start can reach
      the last return to the dig point with all its cycles counted, and that
      return can still fail. */
  lemma {:induction false} CompletedCyclesAreNotSuccess(p: Plan, a: StartArgs, reason: string)
    requires PlanOk(p) && Startable(p, a)
    ensures var t := RunResults(p, a, CompletingResults(p, a) + [ChildResult(FollowChild, ChildOther, reason, true, None)]);
      t.cycle.snapshot.completed == t.cycle.snapshot.requested == a.cycles && t.cycle.snapshot.outcome == HasFailed
  {
    CompletingWalksShape(p, a, CompletingResults(p, a));
    LastReturnCanFail(p, a, CompletingResults(p, a), reason);
  }

  lemma {:induction false} LastReturnCanFail(p: Plan, a: StartArgs, results: seq<ChildResult>, reason: string)
    requires PlanOk(p) && Startable(p, a)
    requires RunResults(p, a, results).stages == Shape(p.profile, a.cycles) && |results| == |Shape(p.profile, a.cycles)| - 1
    ensures var t := RunResults(p, a, results + [ChildResult(FollowChild, ChildOther, reason, true, None)]);
      t.cycle.snapshot.completed == t.cycle.snapshot.requested == a.cycles && t.cycle.snapshot.outcome == HasFailed
  {
    var bad := ChildResult(FollowChild, ChildOther, reason, true, None);
    assert (results + [bad])[..|results|] == results;
    var x := RunStands(p, a, results);
    assert Rest(p.profile, a.cycles, x) == [];
    OtherResultEnds(p, At(p, a, x), bad);
  }
}
