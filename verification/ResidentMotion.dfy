/** Policy-independent motion arbitration (edge_runtime/resident_motion.py).

    One policy source and one action semantic may be active at a time, and
    every semantic switch passes through acknowledged zero commands.  Times are
    integer nanoseconds; a Python exception is the Raised case of an Attempt. */
module ResidentMotion {
  import opened Wrappers

  datatype ControlMode = ManualAction | VelocityReference

  datatype HandoffPhase = Idle | TerminalZeroPending | TargetZeroPending | Active

  datatype PolicyBinding = PolicyBinding(source: string, mode: ControlMode)

  /** A float is a finite real, or one of the values math.isfinite rejects. */
  datatype Axis = Finite(value: real) | NonFinite

  datatype Action = Action(boom: Axis, stick: Axis, bucket: Axis, swing: Axis)

  const ZERO_ACTION := Action(Finite(0.0), Finite(0.0), Finite(0.0), Finite(0.0))

  predicate IsFiniteAction(a: Action) {
    a.boom.Finite? && a.stick.Finite? && a.bucket.Finite? && a.swing.Finite?
  }

  predicate InManualRange(x: Axis) {
    x.Finite? && -1.000001 <= x.value <= 1.000001
  }

  predicate IsManualAction(a: Action) {
    InManualRange(a.boom) && InManualRange(a.stick) && InManualRange(a.bucket) && InManualRange(a.swing)
  }

  datatype MotionCandidate = MotionCandidate(
    source: string,
    generation: nat,
    mode: ControlMode,
    action: Action,
    createdNs: nat,
    validUntilNs: nat,
    actionChunk: Option<seq<Action>>)

  const UINT64_MAX := 0xFFFF_FFFF_FFFF_FFFF

  /** The bounds a MotionCandidate checks when it is built from decoded values. */
  predicate Representable(c: MotionCandidate) {
    c.generation <= UINT64_MAX && c.createdNs <= c.validUntilNs <= UINT64_MAX
  }

  /** Why a command was written, or why a submission was turned away. */
  datatype Reason =
    | Accepted
    | NoActivePolicy | HandoffInProgress | WrongSource | StaleGeneration | WrongMode
    | SafetyRejected | ActionExpired | ActionFromFuture | InvalidAction | InvalidManualAction
    | TerminalSourceZero | TargetModeClaim
    | CandidateLeaseExpired | IdleKeepalive | StateWatchdog | UnsafeTelemetry | TerminalDisarm
    | FirstActionAckPending | SinkFaulted | TerminallyDisarmed
    | ActBudgetReached | ActEarlyComplete

  /** The exceptions of the motion owner.  The last group is raised only where
      the source states that its own bookkeeping broke. */
  datatype Error =
    | NotInitialized | AlreadyInitialized | OwnerFaulted | OwnerDisarmed
    | EncodingRefused | SerialFault
    | AckActionNotZero | AckNotCurrent | AckNotAwaited | AckPredatesRequest | AckNothingPending | AckWrongMode
    | LatencyBackwards | LatencyNotCurrent | LatencyNotActive
    | NotActivated | MalformedPacket | PolicyMismatch | InvalidCandidate
    | InvalidBudget | BudgetChanged | InvalidLease | MissionLeaseExpired
    | PhaseWithoutBinding | TargetWithoutBinding | BindingsDisappeared | MeasurementInconsistent
    | EvidenceIncomplete | RevocationWithoutZero | TelemetryUnavailable

  datatype Attempt<+T> = Ok(value: T) | Raised(error: Error)

  datatype Purpose = TerminalSource | TargetClaim

  datatype PendingZero = PendingZero(generation: nat, mode: ControlMode, purpose: Purpose)

  datatype PendingQuery = NothingPending | ZeroPending(zero: PendingZero) | BrokenPhase

  datatype RoutedCommand = RoutedCommand(
    generation: nat, mode: Option<ControlMode>, effectiveAction: Action, accepted: bool, reason: Reason)

  datatype AuthorityState = AuthorityState(
    generation: nat,
    phase: HandoffPhase,
    active: Option<PolicyBinding>,
    target: Option<PolicyBinding>,
    requestedNs: Option<nat>,
    lastLatencyNs: Option<nat>)

  const INITIAL_AUTHORITY := AuthorityState(0, Idle, None, None, None, None)

  /** The shape the five writers of the state keep. */
  predicate WellShaped(a: AuthorityState) {
    match a.phase
    case Idle => a.active.None? && a.target.None? && a.requestedNs.None?
    case TerminalZeroPending => a.active.Some? && a.requestedNs.Some?
    case TargetZeroPending => a.active.None? && a.target.Some? && a.requestedNs.Some?
    case Active => a.active.Some? && a.target.None? && a.requestedNs.None?
  }

  /** The binding the current generation was issued to, if it was not a stop. */
  function Owner(a: AuthorityState): Option<PolicyBinding> {
    if a.target.Some? then a.target else if a.phase.Active? then a.active else None
  }

  function HandoffRequested(a: AuthorityState, binding: PolicyBinding, now: nat): AuthorityState {
    a.(generation := a.generation + 1,
       phase := if a.active.Some? then TerminalZeroPending else TargetZeroPending,
       target := Some(binding),
       requestedNs := Some(now))
  }

  function StopRequested(a: AuthorityState, now: nat): AuthorityState {
    if a.active.None? then
      INITIAL_AUTHORITY.(generation := a.generation + 1, lastLatencyNs := a.lastLatencyNs)
    else
      a.(generation := a.generation + 1, phase := TerminalZeroPending, target := None, requestedNs := Some(now))
  }

  function PendingZeroOf(a: AuthorityState): PendingQuery {
    if a.phase.TerminalZeroPending? then
      if a.active.None? then BrokenPhase
      else ZeroPending(PendingZero(a.generation, a.active.value.mode, TerminalSource))
    else if a.phase.TargetZeroPending? then
      if a.target.None? then BrokenPhase
      else ZeroPending(PendingZero(a.generation, a.target.value.mode, TargetClaim))
    else NothingPending
  }

  function ZeroAcknowledged(a: AuthorityState, generation: nat, mode: ControlMode, action: Action, at: nat)
    : Attempt<AuthorityState>
  {
    if action != ZERO_ACTION then Raised(AckActionNotZero)
    else if generation != a.generation then Raised(AckNotCurrent)
    else if a.requestedNs.None? then Raised(AckNotAwaited)
    else if at < a.requestedNs.value then Raised(AckPredatesRequest)
    else if a.phase.Idle? || a.phase.Active? then Raised(AckNothingPending)
    else
      var expected := if a.phase.TerminalZeroPending? then a.active else a.target;
      if expected.None? || mode != expected.value.mode then Raised(AckWrongMode)
      else if a.phase.TerminalZeroPending? then
        if a.target.None? then
          Ok(INITIAL_AUTHORITY.(generation := a.generation, lastLatencyNs := a.lastLatencyNs))
        else Ok(a.(phase := TargetZeroPending, active := None))
      else if a.target.None? then Raised(TargetWithoutBinding)
      else Ok(a.(phase := Active, active := a.target, target := None, requestedNs := None))
  }

  function LatencyRecorded(a: AuthorityState, generation: nat, started: nat, completed: nat): Attempt<AuthorityState> {
    if completed < started then Raised(LatencyBackwards)
    else if generation != a.generation then Raised(LatencyNotCurrent)
    else if !a.phase.Active? || a.active.None? then Raised(LatencyNotActive)
    else Ok(a.(lastLatencyNs := Some(completed - started)))
  }

  function ZeroModeOf(a: AuthorityState): Option<ControlMode> {
    var binding := if a.phase.TargetZeroPending? then a.target else a.active;
    if binding.None? then None else Some(binding.value.mode)
  }

  function ZeroDecision(generation: nat, mode: Option<ControlMode>, reason: Reason): RoutedCommand {
    RoutedCommand(generation, mode, ZERO_ACTION, false, reason)
  }

  function Route(a: AuthorityState, maxFutureSkewNs: nat, c: MotionCandidate, now: nat, safetyPermits: bool)
    : RoutedCommand
  {
    if !a.phase.Active? || a.active.None? then
      ZeroDecision(a.generation, ZeroModeOf(a), if a.phase.Idle? then NoActivePolicy else HandoffInProgress)
    else
      var binding := a.active.value;
      var mode := Some(binding.mode);
      if c.source != binding.source then ZeroDecision(a.generation, mode, WrongSource)
      else if c.generation != a.generation then ZeroDecision(a.generation, mode, StaleGeneration)
      else if c.mode != binding.mode then ZeroDecision(a.generation, mode, WrongMode)
      else if !safetyPermits then ZeroDecision(a.generation, mode, SafetyRejected)
      else if now > c.validUntilNs then ZeroDecision(a.generation, mode, ActionExpired)
      else if c.createdNs > now + maxFutureSkewNs then ZeroDecision(a.generation, mode, ActionFromFuture)
      else if !IsFiniteAction(c.action) then ZeroDecision(a.generation, mode, InvalidAction)
      else if binding.mode.ManualAction? && !IsManualAction(c.action) then
        ZeroDecision(a.generation, mode, InvalidManualAction)
      else RoutedCommand(a.generation, mode, c.action, true, Accepted)
  }

  /** The reasons that leave the wire and the authority alone. */
  predicate IsPassiveRejection(r: Reason) {
    r.NoActivePolicy? || r.WrongSource? || r.StaleGeneration? || r.WrongMode?
  }

  /** A nonzero command leaves Route only for the active policy, at the current
      generation, with safety evidence, inside its own lease and range. */
  lemma RouteAcceptsExactly(a: AuthorityState, skew: nat, c: MotionCandidate, now: nat, permits: bool)
    ensures Route(a, skew, c, now, permits).accepted <==>
            a.phase.Active? && a.active == Some(PolicyBinding(c.source, c.mode)) && c.generation == a.generation &&
            permits && now <= c.validUntilNs && c.createdNs <= now + skew &&
            IsFiniteAction(c.action) && (c.mode.ManualAction? ==> IsManualAction(c.action))
    ensures Route(a, skew, c, now, permits).effectiveAction ==
            if Route(a, skew, c, now, permits).accepted then c.action else ZERO_ACTION
    ensures !Route(a, skew, c, now, permits).accepted <==> Route(a, skew, c, now, permits).reason != Accepted
  {
    if a.active.Some? {
      var b := a.active.value;
      assert a.active == Some(PolicyBinding(c.source, c.mode)) <==> c.source == b.source && c.mode == b.mode;
    }
  }

  /** resident_motion.py, ResidentMotionAuthority: every method replaces the
      whole state record under one lock. */
  class ResidentMotionAuthority {
    var state: AuthorityState
    const maxFutureSkewNs: nat

    constructor (maxFutureSkewNs: nat)
      ensures state == INITIAL_AUTHORITY && this.maxFutureSkewNs == maxFutureSkewNs
    {
      this.maxFutureSkewNs := maxFutureSkewNs;
      state := INITIAL_AUTHORITY;
    }

    method RequestHandoff(binding: PolicyBinding, now: nat) returns (generation: nat)
      modifies this
      ensures state == HandoffRequested(old(state), binding, now)
      ensures generation == state.generation
    {
      generation := state.generation + 1;
      var phase := TargetZeroPending;
      if state.active.Some? {
        phase := TerminalZeroPending;
      }
      state := state.(generation := generation, phase := phase, target := Some(binding), requestedNs := Some(now));
    }

    method RequestStop(now: nat) returns (generation: nat)
      modifies this
      ensures state == StopRequested(old(state), now)
      ensures generation == state.generation
    {
      generation := state.generation + 1;
      if state.active.None? {
        state := AuthorityState(generation, Idle, None, None, None, state.lastLatencyNs);
      } else {
        state := state.(
          generation := generation, phase := TerminalZeroPending, target := None, requestedNs := Some(now));
      }
    }

    method AcknowledgeZero(generation: nat, mode: ControlMode, action: Action, at: nat)
      returns (error: Option<Error>)
      modifies this
      ensures match ZeroAcknowledged(old(state), generation, mode, action, at)
              case Ok(next) => error == None && state == next
              case Raised(e) => error == Some(e) && state == old(state)
    {
      if action != ZERO_ACTION { return Some(AckActionNotZero); }
      if generation != state.generation { return Some(AckNotCurrent); }
      if state.requestedNs.None? { return Some(AckNotAwaited); }
      if at < state.requestedNs.value { return Some(AckPredatesRequest); }
      var expected;
      if state.phase == TerminalZeroPending {
        expected := state.active;
      } else if state.phase == TargetZeroPending {
        expected := state.target;
      } else {
        return Some(AckNothingPending);
      }
      if expected.None? || mode != expected.value.mode { return Some(AckWrongMode); }
      if state.phase == TerminalZeroPending {
        if state.target.None? {
          state := AuthorityState(state.generation, Idle, None, None, None, state.lastLatencyNs);
        } else {
          state := state.(phase := TargetZeroPending, active := None);
        }
        return None;
      }
      if state.target.None? { return Some(TargetWithoutBinding); }
      state := state.(phase := Active, active := state.target, target := None, requestedNs := None);
      error := None;
    }

    method RecordHandoffLatency(generation: nat, started: nat, completed: nat) returns (error: Option<Error>)
      modifies this
      ensures match LatencyRecorded(old(state), generation, started, completed)
              case Ok(next) => error == None && state == next
              case Raised(e) => error == Some(e) && state == old(state)
    {
      if completed < started { return Some(LatencyBackwards); }
      if generation != state.generation { return Some(LatencyNotCurrent); }
      if state.phase != Active || state.active.None? { return Some(LatencyNotActive); }
      state := state.(lastLatencyNs := Some(completed - started));
      error := None;
    }
  }
}
