/** resident_fixed_cycle.py, class ResidentFixedCycle, in place. */
module ResidentFixedCycles {
  import opened Wrappers
  import opened FixedCyclePlans
  import opened FixedCycle
  import Spec = FixedCycle

  class ResidentFixedCycle {
    const plan: Plan
    var snapshot: Snapshot
    var index: nat
    var points: seq<string>

    ghost predicate Valid()
      reads this
    {
      CycleOk(plan, State())
    }

    ghost function State(): Cycle
      reads this
    {
      Cycle(snapshot, index, points)
    }

    constructor (plan: Plan)
      requires PlanOk(plan)
      ensures Valid() && this.plan == plan && State() == InitialCycle(plan)
    {
      this.plan := plan;
      snapshot := IDLE_SNAPSHOT;
      index := 0;
      points := plan.digSequence;
    }

    method Start(a: StartArgs, safeRunId: bool) returns (reply: CycleReply)
      requires Valid()
      modifies this
      ensures Valid() && CycleStep(State(), reply) == Spec.Start(plan, old(State()), a, safeRunId)
    {
      StartKeepsOk(plan, State(), a, safeRunId);
      if snapshot.stage != IdleStage && !snapshot.terminal { return Refused(AlreadyActive); }
      if !(1 <= a.cycles <= MAX_REQUESTED_CYCLES) { return Refused(CyclesOutOfRange); }
      var group := OrElse(a.group, plan.defaultGroup);
      if group !in plan.groups { return Refused(UnknownGroup); }
      points := plan.groups[group];
      var first := OrElse(a.point, points[0]);
      if first !in points { return Refused(UnknownPoint); }
      index := IndexOf(points, first);
      if !safeRunId { return Refused(InvalidRunId); }
      snapshot := Snapshot(a.runId, plan.profile, FollowDig, a.cycles, 0, first, group, false, NoOutcome, "");
      reply := Go(FollowTarget(plan, first));
    }

    method RecordChildResult(r: ChildResult) returns (reply: CycleReply)
      requires Valid()
      modifies this
      ensures Valid() && CycleStep(State(), reply) == Record(plan, old(State()), r)
    {
      RecordKeepsOk(plan, State(), r);
      reply := Nothing;
      if snapshot.stage == IdleStage || snapshot.terminal { return Refused(NoActiveChild); }
      if !r.quiescent {
        EndFailed("CHILD_NOT_QUIESCENT");
        return;
      }
      if r.outcome == ChildCancelled {
        EndCancelled(OrElse(Some(r.reason), "CANCELLED"));
        return;
      }
      if r.outcome != ChildSucceeded {
        EndFailed(OrElse(Some(r.reason), "CHILD_FAILED"));
        return;
      }
      var stage := snapshot.stage;
      if stage == FollowDig && r.child == FollowChild && r.reason == "SUCCEEDED" {
        if snapshot.completed == snapshot.requested {
          snapshot := snapshot.(stage := Completed, terminal := true, outcome := Succeeded,
            reason := "SEQUENCE_COMPLETED");
          return;
        }
        snapshot := snapshot.(stage := if plan.profile == ActFullCycle then ActWholeCycle else ActDig);
        return Go(RunAct(plan.actMaxSteps));
      }
      if (stage == ActDig || stage == ActWholeCycle) && r.child == ActChild {
        if !ActResultFits(plan, r) {
          EndFailed("ACT_STEP_BUDGET_MISMATCH");
          return;
        }
        if plan.profile == ActFullCycle {
          reply := ReturnToDigPoint();
          return;
        }
        snapshot := snapshot.(stage := FollowDump);
        return Go(FollowTarget(plan, DUMP));
      }
      if stage == FollowDump && r.child == FollowChild && r.reason == "SUCCEEDED" {
        snapshot := snapshot.(stage := ExecuteDump);
        return Go(RunFixed("ExecuteDump"));
      }
      if stage == ExecuteDump && r.child == FixedActionChild && r.reason == "SEQUENCE_COMPLETED" {
        reply := ReturnToDigPoint();
        return;
      }
      EndFailed("UNEXPECTED_CHILD_RESULT");
    }

    method ReturnToDigPoint() returns (reply: CycleReply)
      requires Valid() && index < |points|
      modifies this
      ensures CycleStep(State(), reply) == ReturnToDig(plan, old(State()))
    {
      var completed := snapshot.completed + 1;
      if completed < snapshot.requested {
        index := (index + 1) % |points|;
      }
      var target := points[index];
      snapshot := snapshot.(stage := FollowDig, completed := completed, point := target);
      reply := Go(FollowTarget(plan, target));
    }

    method EndFailed(reason: string)
      modifies this
      ensures State() == Spec.Fail(old(State()), reason)
    {
      snapshot := snapshot.(stage := FailedStage, terminal := true, outcome := HasFailed, reason := reason);
    }

    method EndCancelled(reason: string)
      modifies this
      ensures State() == Spec.Cancel(old(State()), reason)
    {
      snapshot := snapshot.(stage := Cancelled, terminal := true, outcome := WasCancelled, reason := reason);
    }

    /** cancel and fail raise when nothing is active. */
    method Cancel(reason: string) returns (done: bool)
      requires Valid()
      modifies this
      ensures Valid() && done == old(Busy(State()))
      ensures State() == if done then Spec.Cancel(old(State()), reason) else old(State())
    {
      done := snapshot.stage != IdleStage && !snapshot.terminal;
      if done { EndCancelled(reason); }
    }

    method Fail(reason: string) returns (done: bool)
      requires Valid()
      modifies this
      ensures Valid() && done == old(Busy(State()))
      ensures State() == if done then Spec.Fail(old(State()), reason) else old(State())
    {
      done := snapshot.stage != IdleStage && !snapshot.terminal;
      if done { EndFailed(reason); }
    }
  }
}
