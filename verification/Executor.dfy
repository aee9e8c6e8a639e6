/** The behavior executor (edge_runtime/remote.py, EdgeBehaviorExecutor): at most
    one Follow or fixed action at a time, and an event stream about it.  One step
    function gives what each method does under its reentrant lock; an event
    callback may call the executor again from inside, so a call carries the calls
    its event provokes. */
module Executor {
  import opened Wrappers

  datatype Identity = Identity(session: string, number: int, request: string)

  datatype Behavior = Follow | ExecuteDig | ExecuteDump

  /** A decoded request; the flags are the outcomes of checks on its contents. */
  datatype Request =
    | StartFollow(id: Identity, fieldsOk: bool, trajectoryOk: bool)
    | StartFixed(id: Identity, fieldsOk: bool, behavior: Option<Behavior>, available: bool, createOk: bool)
    | CancelFollow(id: Identity, fieldsOk: bool)
    | CancelFixed(id: Identity, fieldsOk: bool)
    | Unsupported(id: Identity)

  datatype Safety = Safety(
    controlEnabled: bool, sensorValid: bool, stm32Alive: bool, estop: bool, faults: bool, at: int)

  /** The optional question whether RL may move the machine. */
  datatype Authorization = NotResident | Authorized | Unauthorized | Unanswered

  datatype StepResult = StepActive | StepCompleted | StepTimeout | StepOther

  /** What the runner makes of a machine state. */
  datatype RunnerStep = StepRaised | StepRejected | Stepped(result: StepResult, completed: bool, reason: string)

  /** closeOk tells whether closing the runner succeeds, should the call close it. */
  datatype Env = Env(now: int, authorization: Authorization, closeOk: bool)

  datatype Op =
    | Handle(request: Request, sink: nat, env: Env)
    | CancelDirectly(request: Request, caller: Option<nat>, env: Env)
    | Observe(safety: Option<Safety>, step: RunnerStep, env: Env)
    | Watchdog(env: Env)
    | Close(emit: bool, env: Env)
    | Disconnect(sink: nat, env: Env)
    | Status

  datatype Call = Call(op: Op, reactions: seq<Call>)

  datatype EventKind =
    | Accepted
    | Feedback
    | Result(succeeded: bool, cancelled: bool, reason: string, quiescent: bool)
    | Rejected(reason: string)

  datatype Event = Event(number: nat, sink: nat, kind: EventKind, session: string, request: string)

  /** The history: events handed to callbacks, status snapshots, runners closed. */
  datatype Entry = Emitted(event: Event) | StatusGiven(number: nat) | RunnerClosed(runner: nat)

  datatype Active = Active(
    behavior: Behavior, session: string, request: string, number: int, sink: nat, runner: nat)

  datatype State = State(
    active: Option<Active>,
    eventSequence: nat,
    lastNumbers: map<string, int>,
    safety: Option<Safety>,
    runners: nat,
    trace: seq<Entry>,
    requests: seq<Identity>)

  const INITIAL := State(None, 0, map[], None, 0, [], [])

  datatype Config = Config(stateTimeout: int, senderConstructed: bool)

  /** emitted: the step ended by handing an event to a callback. */
  datatype Step = Step(state: State, emitted: bool)

  function Emit(s: State, sink: nat, kind: EventKind, session: string, request: string): Step {
    Step(s.(eventSequence := s.eventSequence + 1,
            trace := s.trace + [Emitted(Event(s.eventSequence, sink, kind, session, request))]), true)
  }

  function Reject(s: State, id: Identity, sink: nat, reason: string): Step {
    Emit(s, sink, Rejected(reason), id.session, id.request)
  }

  /** _accept_request_sequence */
  predicate InOrder(s: State, id: Identity) { id.session in s.lastNumbers ==> id.number > s.lastNumbers[id.session] }

  function Noted(s: State, id: Identity): State {
    s.(lastNumbers := s.lastNumbers[id.session := id.number], requests := s.requests + [id])
  }

  function RlGate(a: Authorization): Option<string> {
    match a
    case NotResident => None
    case Authorized => None
    case Unauthorized => Some("resident_rl_not_active")
    case Unanswered => Some("resident_rl_authorization_unavailable")
  }

  /** _motion_gate_reason_locked; None is "ready". */
  function MotionGate(cfg: Config, latest: Option<Safety>, e: Env): Option<string> {
    if latest.None? then Some("state_unavailable")
    else
      var safety := latest.value;
      if e.now - safety.at > cfg.stateTimeout then Some("state_stale")
      else if safety.estop then Some("estop")
      else if !safety.stm32Alive then Some("stm32_timeout")
      else if !safety.sensorValid then Some("sensor_invalid")
      else if safety.faults then Some("fault_flags")
      else if !safety.controlEnabled then Some("control_disabled")
      else if !cfg.senderConstructed then Some("sender_unavailable")
      else RlGate(e.authorization)
  }

  /** _finish: the runner is closed before the result goes out. */
  function Finish(s: State, kind: EventKind, emit: bool): Step
    requires s.active.Some?
  {
    var a := s.active.value;
    var t := s.(active := None, trace := s.trace + [RunnerClosed(a.runner)]);
    if emit then Emit(t, a.sink, kind, a.session, a.request) else Step(t, false)
  }

  function Failure(reason: string, e: Env): EventKind { Result(false, false, reason, e.closeOk) }

  function Success(reason: string, e: Env): EventKind { Result(true, false, reason, e.closeOk) }

  /** The checks start and _start_fixed_action share, in their order. */
  function Admission(cfg: Config, s: State, id: Identity, fieldsOk: bool, e: Env): Option<string> {
    if !fieldsOk then Some("BAD_REQUEST")
    else if !InOrder(s, id) then Some("OUT_OF_ORDER")
    else if s.active.Some? then Some("BUSY")
    else if MotionGate(cfg, s.safety, e).Some? then Some("MOTION_NOT_READY")
    else None
  }

  function Begin(s: State, behavior: Behavior, id: Identity, sink: nat): Step {
    Emit(s.(active := Some(Active(behavior, id.session, id.request, id.number, sink, s.runners)), runners := s.runners + 1),
         sink, Accepted, id.session, id.request)
  }

  /** Why a fixed action is refused once it is admitted. */
  function FixedRefusal(r: Request): Option<string>
    requires r.StartFixed?
  {
    if r.behavior != Some(ExecuteDig) && r.behavior != Some(ExecuteDump) then Some("INVALID_FIXED_ACTION")
    else if !r.available then Some("FIXED_ACTION_UNAVAILABLE")
    else if !r.createOk then Some("INVALID_FIXED_ACTION")
    else None
  }

  function StartStep(cfg: Config, s: State, r: Request, sink: nat, e: Env): Step
    requires r.StartFollow? || r.StartFixed?
  {
    var refused := Admission(cfg, s, r.id, r.fieldsOk, e);
    var noted := if r.fieldsOk && InOrder(s, r.id) then Noted(s, r.id) else s;
    if refused.Some? then Reject(noted, r.id, sink, refused.value)
    else if r.StartFollow? then
      if !r.trajectoryOk then Reject(noted, r.id, sink, "INVALID_TRAJECTORY") else Begin(noted, Follow, r.id, sink)
    else if FixedRefusal(r).Some? then Reject(noted, r.id, sink, FixedRefusal(r).value)
    else Begin(noted, r.behavior.value, r.id, sink)
  }

  function CancelRefusal(s: State, r: Request, sink: Option<nat>): Option<string>
    requires r.CancelFollow? || r.CancelFixed?
  {
    if s.active.None? then Some("NOT_ACTIVE")
    else
      var a := s.active.value;
      if a.behavior.Follow? != r.CancelFollow? then Some("BEHAVIOR_MISMATCH")
      else if sink.Some? && sink.value != a.sink then Some("SESSION_MISMATCH")
      else if r.id.session != a.session then Some("SESSION_MISMATCH")
      else if r.id.number <= a.number then Some("OUT_OF_ORDER")
      else None
  }

  /** _cancel_behavior */
  function CancelStep(s: State, r: Request, sink: Option<nat>, e: Env): Step
    requires r.CancelFollow? || r.CancelFixed?
  {
    if sink.None? && s.active.None? then Step(s, false)
    else
      var to := if sink.Some? then sink.value else s.active.value.sink;
      if !r.fieldsOk then Reject(s, r.id, to, "BAD_REQUEST")
      else if !InOrder(s, r.id) then Reject(s, r.id, to, "OUT_OF_ORDER")
      else
        var noted := Noted(s, r.id);
        var refused := CancelRefusal(noted, r, sink);
        if refused.Some? then Reject(noted, r.id, to, refused.value)
        else Finish(noted, Result(false, true, "CANCELLED", e.closeOk), true)
  }

  function OrElse(reason: string, default: string): string { if reason == "" then default else reason }

  /** What an active behavior's step leads to; None is feedback. */
  function Verdict(behavior: Behavior, step: RunnerStep, e: Env): Option<EventKind> {
    match step
    case StepRaised => Some(Failure("EXECUTION_ERROR", e))
    case StepRejected => Some(Failure("STATE_REJECTED", e))
    case Stepped(result, completed, reason) =>
      if behavior.Follow? then
        if result.StepActive? && !completed then None
        else if result.StepCompleted? || completed then Some(Success("SUCCEEDED", e))
        else if result.StepTimeout? then Some(Failure("TRACKING_TIMEOUT", e))
        else Some(Failure("EXECUTION_ERROR", e))
      else if result.StepActive? then None
      else if result.StepCompleted? then Some(Success(OrElse(reason, "SEQUENCE_COMPLETED"), e))
      else if result.StepTimeout? then Some(Failure(OrElse(reason, "STEP_TIMEOUT"), e))
      else Some(Failure(OrElse(reason, "EXECUTION_ERROR"), e))
  }

  function ObserveStep(s: State, safety: Option<Safety>, step: RunnerStep, e: Env): Step {
    var noted := if safety.Some? then s.(safety := Some(safety.value.(at := e.now))) else s;
    if noted.active.None? then Step(noted, false)
    else if RlGate(e.authorization).Some? then Finish(noted, Failure("MOTION_GATE_CLOSED", e), true)
    else
      var a := noted.active.value;
      var verdict := Verdict(a.behavior, step, e);
      if verdict.None? then Emit(noted, a.sink, Feedback, a.session, a.request)
      else Finish(noted, verdict.value, true)
  }

  /** One method call, without the reactions to its event. */
  function Apply(cfg: Config, s: State, op: Op): Step {
    match op
    case Handle(r, sink, e) =>
      if r.StartFollow? || r.StartFixed? then StartStep(cfg, s, r, sink, e)
      else if r.CancelFollow? || r.CancelFixed? then CancelStep(s, r, Some(sink), e)
      else Reject(s, r.id, sink, "BAD_REQUEST")
    case CancelDirectly(r, sink, e) =>
      if r.CancelFollow? || r.CancelFixed? then CancelStep(s, r, sink, e) else Step(s, false)
    case Observe(safety, step, e) => ObserveStep(s, safety, step, e)
    case Watchdog(e) =>
      if s.active.None? || MotionGate(cfg, s.safety, e).None? then Step(s, false)
      else Finish(s, Failure("MOTION_GATE_CLOSED", e), true)
    case Close(emit, e) => if s.active.None? then Step(s, false) else Finish(s, Failure("CONNECTION_CLOSED", e), emit)
    case Disconnect(sink, e) =>
      if s.active.None? || s.active.value.sink != sink then Step(s, false)
      else Finish(s, Failure("CONNECTION_CLOSED", e), false)
    case Status =>
      Step(s.(eventSequence := s.eventSequence + 1, trace := s.trace + [StatusGiven(s.eventSequence)]), false)
  }

  /** A call with everything its event callback does in turn. */
  function Exec(cfg: Config, s: State, call: Call): State
    decreases call, |call.reactions| + 2
  {
    Settled(cfg, Apply(cfg, s, call.op), call)
  }

  /** If the step ended by emitting an event, its callback runs. */
  function Settled(cfg: Config, step: Step, call: Call): State
    decreases call, |call.reactions| + 1
  {
    if step.emitted then React(cfg, step.state, call, 0) else step.state
  }

  /** The reactions of a call from the k-th on. */
  function React(cfg: Config, s: State, call: Call, k: nat): State
    requires k <= |call.reactions|
    decreases call, |call.reactions| - k
  {
    if k == |call.reactions| then s
    else React(cfg, Exec(cfg, s, call.reactions[k]), call, k + 1)
  }

  function ExecAll(cfg: Config, calls: seq<Call>): State {
    if calls == [] then INITIAL else Exec(cfg, ExecAll(cfg, calls[..|calls| - 1]), calls[|calls| - 1])
  }
}
