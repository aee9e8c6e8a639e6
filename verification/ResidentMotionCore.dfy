/** resident_core.py, class ResidentMotionCore, in place: the owner of the sink
    and of both adapters.  Each method's new State() is the step of module
    ResidentCore. */
module ResidentMotionCores {
  import opened Wrappers
  import opened ResidentMotion
  import opened ResidentSink
  import opened ResidentCommandSinks
  import opened ResidentIngress
  import opened ResidentAdapters
  import opened ResidentCore
  import Spec = ResidentCore

  class ResidentMotionCore {
    const cfg: CoreConfig
    const sink: ResidentCommandSink
    const rl: ResidentVelocityActionAdapter
    const act: ResidentPolicyCandidateAdapter
    var segment: Segment
    var deadlineNs: Option<nat>
    var disarmResult: Option<WriteResult>
    var zeroAcknowledged: bool

    ghost predicate Valid()
      reads this, sink
    {
      && sink.Valid() && sink.cfg == cfg.sink
      && rl.sink == sink && rl.binding == RL_BINDING && act.sink == sink && act.binding == ACT_BINDING
    }

    ghost function State(): Core
      reads this, sink, sink.authority, sink.encoder, rl, act
    {
      Core(sink.State(), rl.State(), act.State(), segment, deadlineNs, disarmResult, zeroAcknowledged)
    }

    constructor (cfg: CoreConfig)
      ensures Valid() && this.cfg == cfg && State() == INITIAL_CORE
      ensures fresh(sink) && fresh(sink.authority) && fresh(sink.encoder) && fresh(rl) && fresh(act)
    {
      this.cfg := cfg;
      var owned := new ResidentCommandSink(cfg.sink);
      sink := owned;
      rl := new ResidentVelocityActionAdapter(owned, RL_BINDING.source);
      act := new ResidentPolicyCandidateAdapter(owned, ACT_BINDING);
      segment := NO_SEGMENT;
      deadlineNs, disarmResult, zeroAcknowledged := None, None, false;
    }

    function RlIsActiveNow(): (active: bool)
      reads this, sink, sink.authority, sink.encoder
      ensures active == RlIsActive(sink.State())
    {
      sink.authority.state.phase == Active && sink.authority.state.active == Some(RL_BINDING)
    }

    function ActIsActiveNow(): (active: bool)
      reads this, sink, sink.authority, sink.encoder
      ensures active == ActIsActive(sink.State())
    {
      sink.authority.state.phase == Active && sink.authority.state.active == Some(ACT_BINDING)
    }

    method Initialize(f: Telemetry) returns (outcome: Outcome)
      requires Valid()
      modifies this, sink, sink.encoder
      ensures Valid() && CoreStep(State(), outcome) == CoreInitialize(old(State()), f)
    {
      outcome := sink.Initialize(f);
    }

    method ObserveTelemetry(f: Telemetry, ok: bool) returns (outcome: Outcome)
      requires Valid()
      modifies this, sink, sink.authority, sink.encoder, rl
      ensures Valid() && CoreStep(State(), outcome) == CoreObserve(cfg, old(State()), f, ok)
    {
      outcome := sink.ObserveTelemetry(f, ok);
      if outcome.Failed? { return; }
      outcome := FollowRow(f, ok);
    }

    /** resident_core.py:230-251, under the control lock. */
    method FollowRow(f: Telemetry, ok: bool) returns (outcome: Outcome)
      requires Valid()
      modifies this, sink, sink.authority, sink.encoder, rl
      ensures Valid() && CoreStep(State(), outcome) == AfterObserve(old(State()), f, ok)
    {
      if disarmResult.Some? && TerminalZeroEchoed(disarmResult.value, f) {
        zeroAcknowledged := true;
      }
      if !SegmentEchoed(segment, f) { return Done; }
      var snapshot := sink.authority.state;
      if snapshot.phase != Active || snapshot.active != Some(ACT_BINDING) || segment.generation != Some(snapshot.generation) {
        return Done;
      }
      outcome := rl.BeginActivation(f.receivedNs, ok);
      if outcome.Failed? { return; }
      segment := segment.(complete := true, handoffDue := false);
      outcome := Done;
    }

    method InvalidateTelemetry(now: nat, alive: bool, ok: bool) returns (outcome: Outcome)
      requires Valid()
      modifies this, sink, sink.authority, sink.encoder
      ensures Valid() && CoreStep(State(), outcome) == CoreInvalidate(cfg, old(State()), now, alive, ok)
    {
      outcome := sink.InvalidateTelemetry(now, alive, ok);
    }

    method ActivateRl(now: nat, ok: bool) returns (outcome: Outcome)
      requires Valid()
      modifies this, sink, sink.authority, sink.encoder, rl
      ensures Valid() && CoreStep(State(), outcome) == Spec.ActivateRl(old(State()), now, ok)
    {
      outcome := rl.BeginActivation(now, ok);
      if outcome.Failed? { return; }
      segment := segment.(handoffDue := false);
    }

    method ActivateAct(maxSteps: Option<int>, now: nat, ok: bool) returns (outcome: Outcome)
      requires Valid()
      modifies this, sink, sink.authority, sink.encoder, act
      ensures Valid() && CoreStep(State(), outcome) == Spec.ActivateAct(old(State()), maxSteps, now, ok)
    {
      if maxSteps.Some? && !(1 <= maxSteps.value <= MAX_ACT_SEGMENT_STEPS) { return Failed(InvalidBudget); }
      var budget: Option<nat> := if maxSteps.None? then None else Some(maxSteps.value);
      outcome := act.BeginActivation(now, ok);
      if !outcome.Generation? { return; }
      if segment.generation == Some(outcome.generation) {
        if segment.maxSteps != budget { outcome := Failed(BudgetChanged); }
        return;
      }
      segment := NO_SEGMENT.(generation := Some(outcome.generation), maxSteps := budget);
    }

    method SubmitAct(p: CandidatePacket, now: nat, ok: bool) returns (outcome: Outcome)
      requires Valid()
      modifies this, sink, sink.authority, sink.encoder, act
      ensures Valid() && CoreStep(State(), outcome) == Spec.SubmitAct(cfg, old(State()), p, now, ok)
    {
      if segment.handoffDue {
        return Rejection(if segment.reason == Some(DeadzoneChunk) then ActEarlyComplete else ActBudgetReached,
          Some(ManualAction));
      }
      outcome := act.Send(p, now, ok);
      if !outcome.Result? || !outcome.result.accepted || segment.generation.None? { return; }
      if outcome.result.commandSeq.Some? && p.CandidatePacket? {
        segment := Advance(cfg, segment, outcome.result.commandSeq.value, outcome.result.effectiveAction,
          p.candidate.actionChunk);
      }
    }

    method SendRl(p: VelocityPacket, now: nat, wallMs: nat, ok: bool) returns (outcome: Outcome)
      requires Valid()
      modifies sink, sink.authority, sink.encoder, rl
      ensures Valid() && CoreStep(State(), outcome) == Spec.SendRl(cfg, old(State()), p, now, wallMs, ok)
    {
      outcome := rl.Send(p, now, wallMs, ok);
    }

    method StopRl(now: nat, ok: bool) returns (outcome: Outcome)
      requires Valid()
      modifies sink, sink.authority, sink.encoder, rl
      ensures Valid() && CoreStep(State(), outcome) == Spec.StopRl(old(State()), now, ok)
    {
      outcome := rl.RequestStop(now, ok);
    }

    method NotifyActWorkerDisconnected(now: nat, ok: bool) returns (outcome: Outcome)
      requires Valid()
      modifies this, sink, sink.authority, sink.encoder
      ensures Valid() && CoreStep(State(), outcome) == Disconnect(old(State()), now, ok)
    {
      if sink.RefusalNow().Some? || segment.generation.None? { return Stopped(false); }
      outcome := sink.RequestSourceStop(ACT_BINDING, segment.generation.value, now, ok);
      if outcome == Stopped(true) {
        segment := segment.(handoffDue := false);
      }
    }

    method TerminalDisarm(now: nat, ok: bool) returns (outcome: Outcome)
      requires Valid()
      modifies this, sink, sink.authority, sink.encoder
      ensures Valid() && CoreStep(State(), outcome) == CoreDisarm(old(State()), now, ok)
    {
      if disarmResult.Some? { return Result(disarmResult.value); }
      deadlineNs := None;
      segment := segment.(handoffDue := false);
      outcome := sink.TerminallyDisarm(now, ok);
      if !outcome.Result? { return; }
      var r := outcome.result;
      disarmResult := Some(r);
      zeroAcknowledged := !r.writePerformed && r.reason.TerminalDisarm? && r.commandSeq.None? &&
        r.mode.None? && r.effectiveAction == ZERO_ACTION;
    }

    method RenewMissionLease(leaseMs: int, now: nat, ok: bool) returns (outcome: Outcome)
      requires Valid()
      modifies this, sink, sink.authority, sink.encoder
      ensures Valid() && CoreStep(State(), outcome) == RenewLease(old(State()), leaseMs, now, ok)
    {
      if !(MIN_MISSION_LEASE_MS <= leaseMs <= MAX_MISSION_LEASE_MS) { return Failed(InvalidLease); }
      if sink.RefusalNow().Some? { return Failed(OwnerDisarmed); }
      if deadlineNs.Some? && now >= deadlineNs.value {
        outcome := TerminalDisarm(now, ok);
        if !outcome.Failed? { outcome := Failed(MissionLeaseExpired); }
        return;
      }
      deadlineNs := Some(now + leaseMs * 1_000_000);
      outcome := Done;
    }

    method Tick(now: nat, ok: bool) returns (outcome: Outcome)
      requires Valid()
      modifies this, sink, sink.authority, sink.encoder
      ensures Valid() && CoreStep(State(), outcome) == CoreTick(cfg, old(State()), now, ok)
    {
      if deadlineNs.Some? && now >= deadlineNs.value {
        deadlineNs := None;
        outcome := TerminalDisarm(now, ok);
        return;
      }
      outcome := sink.Tick(now, ok);
    }
  }
}
