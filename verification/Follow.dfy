/** One run of the Follow runtime (edge_runtime/follow.py, EdgeFollowRuntime.step):
    slew limiting, terminal results and time, over the waypoint tracker.  The
    kinematics, the observation and the controller are what an input says they
    give; an exception in one of them keeps what was already assigned. */
module Follow {
  import opened Wrappers
  import opened Arithmetic
  import opened FixedActions
  import opened Actions
  import opened Trajectory

  const INITIAL_SLEW_ELAPSED_CAP := 0.05

  datatype FollowConfig = FollowConfig(
    timeout: real, tolerance: real, carryMaterial: bool, steadyRate: Option<real>, startupRate: Option<real>)

  /** The checks of __init__. */
  predicate ConfigOk(c: FollowConfig) {
    && c.timeout > 0.0 && c.tolerance > 0.0
    && (c.steadyRate.Some? ==> c.steadyRate.value > 0.0)
    && (c.startupRate.Some? ==> c.startupRate.value > 0.0 && c.steadyRate.Some?)
  }

  datatype FollowResult = FollowActive | FollowCompleted | FollowTimeout

  /** A command of an active step, with the policy's target: the history. */
  datatype Command = Command(at: real, action: Values, target: Values)

  datatype FollowState = FollowState(
    commanded: Values,
    pending: seq<bool>,
    lastSequence: Option<int>,
    startedAt: Option<real>,
    lastAt: Option<real>,
    hasCommanded: bool,
    result: FollowResult,
    tracker: Tracker,
    expand: bool,
    commands: seq<Command>)

  /** A machine state as the step sees it: its checks, the bucket tip, the arc
      midpoint toward the target, whether an observation can be built, and the
      controller's answer.  None is an exception. */
  datatype Input = Input(
    valid: bool, sequence: int, now: real, tip: Option<Point>, midpoint: Point, observable: bool, policy: Option<Values>)

  datatype FollowOutput = FollowOutput(result: FollowResult, action: Values)

  datatype FollowStep = FollowStep(state: FollowState, output: Option<FollowOutput>)

  const ALL_PENDING: seq<bool> := [true, true, true, true]

  function NewFollow(waypoints: seq<Point>, tolerance: real, intermediate: Option<real>, slewStarted: Option<real>)
    : FollowState
  {
    FollowState(ZERO, ALL_PENDING, None, None, slewStarted, false, FollowActive,
                NewTracker(waypoints, tolerance, intermediate), |waypoints| == 1, [])
  }

  /** _expand_fixed_endpoint_from */
  function Expanded(c: FollowConfig, s: FollowState, tip: Point, midpoint: Point): (t: FollowState)
    requires TrackerOk(s.tracker)
    ensures TrackerOk(t.tracker) && t == s.(tracker := t.tracker, expand := false)
  {
    if !s.expand then s
    else
      var target := s.tracker.waypoints[0];
      if DistanceSquared(tip, target) <= c.tolerance * c.tolerance then s.(expand := false)
      else
        var via := if c.carryMaterial && midpoint.z < target.z then midpoint.(z := target.z) else midpoint;
        s.(expand := false,
           tracker := NewTracker([tip, via, target], s.tracker.tolerance, s.tracker.intermediate))
  }

  /** The time the slew limiter may use. */
  function SlewElapsed(s: FollowState, now: real): real {
    var elapsed := if s.lastAt.None? then 0.0 else now - s.lastAt.value;
    if s.hasCommanded then elapsed else Min(elapsed, INITIAL_SLEW_ELAPSED_CAP)
  }

  /** The command and the startup flags for a target; None is the limiter's
      ValueError. */
  function Limited(c: FollowConfig, s: FollowState, target: Values, elapsed: real): Option<(Values, seq<bool>)>
    requires |s.pending| == AXES
  {
    if c.steadyRate.None? then Some((target, s.pending))
    else if c.startupRate.None? then
      var slewed := Slew(target, s.commanded, elapsed, c.steadyRate.value);
      if slewed.None? then None else Some((slewed.value, s.pending))
    else DualSlew(target, s.commanded, s.pending, elapsed, c.startupRate.value, c.steadyRate.value)
  }

  predicate StateOk(s: FollowState) { |s.pending| == AXES && TrackerOk(s.tracker) }

  /** The waypoint part of an active step. */
  function Tracked(c: FollowConfig, s: FollowState, tip: Point, midpoint: Point): (t: FollowState)
    requires StateOk(s)
    ensures StateOk(t) && t == s.(tracker := t.tracker, expand := t.expand, result := t.result)
  {
    var expanded := Expanded(c, s, tip, midpoint);
    var tracker := Advance(expanded.tracker, tip);
    expanded.(tracker := tracker, result := if tracker.completed then FollowCompleted else s.result)
  }

  /** A first time is remembered, and a run that has used it up times out. */
  function Timed(c: FollowConfig, s: FollowState, now: real): FollowState {
    var started := if s.startedAt.None? then now else s.startedAt.value;
    s.(startedAt := Some(started),
       result := if s.result.FollowActive? && now - started >= c.timeout then FollowTimeout else s.result)
  }

  /** The end of a step, once the observation is there: the command and the
      bookkeeping of an active step, or zeros. */
  function Concluded(c: FollowConfig, s: FollowState, i: Input): (step: FollowStep)
    requires StateOk(s)
    ensures StateOk(step.state)
  {
    if !i.observable then FollowStep(s, None)
    else if s.result.FollowActive? then
      if i.policy.None? then FollowStep(s, None)
      else
        var limited := Limited(c, s, i.policy.value, SlewElapsed(s, i.now));
        if limited.None? then FollowStep(s, None)
        else
          FollowStep(
            s.(commanded := limited.value.0, pending := limited.value.1, hasCommanded := true,
               lastSequence := Some(i.sequence), lastAt := Some(i.now),
               commands := s.commands + [Command(i.now, limited.value.0, i.policy.value)]),
            Some(FollowOutput(FollowActive, limited.value.0)))
    else
      FollowStep(s.(lastSequence := Some(i.sequence), lastAt := Some(i.now)), Some(FollowOutput(s.result, ZERO)))
  }

  /** EdgeFollowRuntime.step */
  function FollowOnce(c: FollowConfig, s: FollowState, i: Input): (step: FollowStep)
    requires StateOk(s)
    ensures StateOk(step.state)
  {
    if !i.valid || (s.lastSequence.Some? && i.sequence <= s.lastSequence.value) ||
       (s.lastAt.Some? && i.now < s.lastAt.value)
    then FollowStep(s, None)
    else
      var timed := Timed(c, s, i.now);
      if i.tip.None? then FollowStep(timed, None)
      else
        Concluded(c, if timed.result.FollowActive? then Tracked(c, timed, i.tip.value, i.midpoint) else timed, i)
  }

  function FollowRun(c: FollowConfig, s: FollowState, inputs: seq<Input>): (t: FollowState)
    requires StateOk(s)
    ensures StateOk(t)
  {
    if inputs == [] then s else FollowOnce(c, FollowRun(c, s, inputs[..|inputs| - 1]), inputs[|inputs| - 1]).state
  }
}
