/** remote.py, class EdgeBehaviorExecutor, in place.  The callback an event goes
    to is called where the source calls it, and calls back into this object. */
module EdgeBehaviorExecutors {
  import opened Wrappers
  import opened Executor
  import Spec = Executor

  class EdgeBehaviorExecutor {
    const cfg: Config
    var active: Option<Active>
    var eventSequence: nat
    var lastNumbers: map<string, int>
    var latestSafety: Option<Safety>
    var runners: nat
    ghost var trace: seq<Entry>
    ghost var requests: seq<Identity>

    ghost function Now(): State
      reads this
    {
      State(active, eventSequence, lastNumbers, latestSafety, runners, trace, requests)
    }

    constructor (cfg: Config)
      ensures this.cfg == cfg && Now() == INITIAL
    {
      this.cfg := cfg;
      active, eventSequence, lastNumbers, latestSafety, runners := None, 0, map[], None, 0;
      trace, requests := [], [];
    }

    /** _emit: the number is taken before the callback runs, so that whatever the
        callback does comes later in the stream. */
    method Emit(sink: nat, kind: EventKind, session: string, request: string, call: Call)
      modifies this
      ensures Now() == Settled(cfg, Spec.Emit(old(Now()), sink, kind, session, request), call)
      decreases call, 1
    {
      ghost var emitted := Spec.Emit(Now(), sink, kind, session, request).state;
      trace := trace + [Emitted(Event(eventSequence, sink, kind, session, request))];
      eventSequence := eventSequence + 1;
      var k := 0;
      while k < |call.reactions|
        invariant k <= |call.reactions|
        invariant React(cfg, Now(), call, k) == React(cfg, emitted, call, 0)
      {
        Perform(call.reactions[k]);
        k := k + 1;
      }
    }

    method Refuse(id: Identity, sink: nat, reason: string, call: Call)
      modifies this
      ensures Now() == Settled(cfg, Spec.Reject(old(Now()), id, sink, reason), call)
      decreases call, 2
    {
      Emit(sink, Rejected(reason), id.session, id.request, call);
    }

    method AcceptNumber(id: Identity) returns (accepted: bool)
      modifies this
      ensures accepted == InOrder(old(Now()), id)
      ensures Now() == if accepted then Noted(old(Now()), id) else old(Now())
    {
      if id.session in lastNumbers && id.number <= lastNumbers[id.session] { return false; }
      lastNumbers := lastNumbers[id.session := id.number];
      requests := requests + [id];
      accepted := true;
    }

    method FinishActive(kind: EventKind, emit: bool, call: Call)
      requires active.Some?
      modifies this
      ensures Now() == Settled(cfg, Spec.Finish(old(Now()), kind, emit), call)
      decreases call, 2
    {
      var a := active.value;
      trace := trace + [RunnerClosed(a.runner)];
      active := None;
      if emit { Emit(a.sink, kind, a.session, a.request, call); }
    }

    method BeginActive(behavior: Behavior, id: Identity, sink: nat, call: Call)
      modifies this
      ensures Now() == Settled(cfg, Begin(old(Now()), behavior, id, sink), call)
      decreases call, 2
    {
      active := Some(Active(behavior, id.session, id.request, id.number, sink, runners));
      runners := runners + 1;
      Emit(sink, Accepted, id.session, id.request, call);
    }

    method StartBehavior(r: Request, sink: nat, e: Env, call: Call)
      requires r.StartFollow? || r.StartFixed?
      modifies this
      ensures Now() == Settled(cfg, StartStep(cfg, old(Now()), r, sink, e), call)
      decreases call, 3
    {
      var id := r.id;
      if !r.fieldsOk {
        Refuse(id, sink, "BAD_REQUEST", call);
        return;
      }
      var accepted := AcceptNumber(id);
      if !accepted {
        Refuse(id, sink, "OUT_OF_ORDER", call);
        return;
      }
      if active.Some? {
        Refuse(id, sink, "BUSY", call);
        return;
      }
      var gate := MotionGate(cfg, latestSafety, e);
      if gate.Some? {
        Refuse(id, sink, "MOTION_NOT_READY", call);
        return;
      }
      if r.StartFollow? {
        if !r.trajectoryOk {
          Refuse(id, sink, "INVALID_TRAJECTORY", call);
        } else {
          BeginActive(Follow, id, sink, call);
        }
        return;
      }
      var refused := FixedRefusal(r);
      if refused.Some? {
        Refuse(id, sink, refused.value, call);
        return;
      }
      BeginActive(r.behavior.value, id, sink, call);
    }

    method CancelBehavior(r: Request, sink: Option<nat>, e: Env, call: Call)
      requires r.CancelFollow? || r.CancelFixed?
      modifies this
      ensures Now() == Settled(cfg, CancelStep(old(Now()), r, sink, e), call)
      decreases call, 3
    {
      var id := r.id;
      if sink.None? && active.None? { return; }
      var to := if sink.Some? then sink.value else active.value.sink;
      if !r.fieldsOk {
        Refuse(id, to, "BAD_REQUEST", call);
        return;
      }
      var accepted := AcceptNumber(id);
      if !accepted {
        Refuse(id, to, "OUT_OF_ORDER", call);
        return;
      }
      if active.None? {
        Refuse(id, to, "NOT_ACTIVE", call);
        return;
      }
      var a := active.value;
      if a.behavior.Follow? != r.CancelFollow? {
        Refuse(id, to, "BEHAVIOR_MISMATCH", call);
        return;
      }
      if (sink.Some? && sink.value != a.sink) || id.session != a.session {
        Refuse(id, to, "SESSION_MISMATCH", call);
        return;
      }
      if id.number <= a.number {
        Refuse(id, to, "OUT_OF_ORDER", call);
        return;
      }
      FinishActive(Result(false, true, "CANCELLED", e.closeOk), true, call);
    }

    method ObserveState(safety: Option<Safety>, step: RunnerStep, e: Env, call: Call)
      modifies this
      ensures Now() == Settled(cfg, ObserveStep(old(Now()), safety, step, e), call)
      decreases call, 3
    {
      if safety.Some? {
        latestSafety := Some(safety.value.(at := e.now));
      }
      if active.None? { return; }
      if RlGate(e.authorization).Some? {
        FinishActive(Failure("MOTION_GATE_CLOSED", e), true, call);
        return;
      }
      var verdict := Verdict(active.value.behavior, step, e);
      if verdict.Some? {
        FinishActive(verdict.value, true, call);
      } else {
        Emit(active.value.sink, Feedback, active.value.session, active.value.request, call);
      }
    }

    /** Any public method, with what its event provokes. */
    method Perform(call: Call)
      modifies this
      ensures Now() == Exec(cfg, old(Now()), call)
      decreases call, 4
    {
      match call.op
      case Handle(r, sink, e) =>
        if r.StartFollow? || r.StartFixed? {
          StartBehavior(r, sink, e, call);
        } else if r.CancelFollow? || r.CancelFixed? {
          CancelBehavior(r, Some(sink), e, call);
        } else {
          Refuse(r.id, sink, "BAD_REQUEST", call);
        }
      case CancelDirectly(r, caller, e) =>
        if r.CancelFollow? || r.CancelFixed? {
          CancelBehavior(r, caller, e, call);
        }
      case Observe(safety, step, e) => ObserveState(safety, step, e, call);
      case Watchdog(e) =>
        if active.Some? && MotionGate(cfg, latestSafety, e).Some? {
          FinishActive(Failure("MOTION_GATE_CLOSED", e), true, call);
        }
      case Close(emit, e) =>
        if active.Some? {
          FinishActive(Failure("CONNECTION_CLOSED", e), emit, call);
        }
      case Disconnect(sink, e) =>
        if active.Some? && active.value.sink == sink {
          FinishActive(Failure("CONNECTION_CLOSED", e), false, call);
        }
      case Status =>
        trace := trace + [StatusGiven(eventSequence)];
        eventSequence := eventSequence + 1;
    }
  }
}
