/** The fixed-action servo (edge_runtime/fixed_actions.py, FixedActionRuntime):
    one step function for FixedActionRuntime.step, with reals for floats.  The
    mapping of normalized to physical velocities is in module Actions. */
module FixedActions {
  import opened Wrappers
  import opened Arithmetic

  const AXES := 4

  datatype Controller = Controller(
    kp: real, minAction: real, maxAction: real, tolerance: real, stepTimeout: real, hold: real)

  /** The checks of _controller. */
  predicate ControllerOk(c: Controller) {
    && 0.0 < c.kp <= 100.0 && 0.0 <= c.minAction <= c.maxAction <= 1.0
    && 0.0 < c.tolerance <= 1.0 && 0.0 < c.stepTimeout <= 60.0 && 0.0 <= c.hold <= 10.0
  }

  /** One step: a target for some of boom, stick and bucket. */
  type Targets = t: seq<Option<real>> | |t| == AXES witness [None, None, None, None]

  type Values = v: seq<real> | |v| == AXES witness [0.0, 0.0, 0.0, 0.0]

  const ZERO: Values := [0.0, 0.0, 0.0, 0.0]

  const NOTHING_LATCHED: seq<bool> := [false, false, false, false]

  datatype Envelope = Envelope(lower: Values, upper: Values, swingBounded: bool, swingLower: real, swingUpper: real)

  datatype Profile = Profile(controller: Controller, envelope: Envelope, steps: seq<Targets>)

  predicate ProfileOk(p: Profile) { ControllerOk(p.controller) && p.steps != [] }

  /** A machine state: the normalized positions, or unreadable; the swing angle. */
  datatype Observation = Observation(readable: bool, position: Values, swing: Option<real>, now: real)

  datatype Verdict = Going | Completed | TimedOut

  /** seen and marks are the history: the accepted observations, and how many of
      them there were when each step's targets had all been reached. */
  datatype Servo = Servo(
    index: nat,
    startedAt: Option<real>,
    holdUntil: Option<real>,
    verdict: Verdict,
    startChecked: bool,
    latched: seq<bool>,
    seen: seq<Observation>,
    marks: seq<nat>)

  const INITIAL := Servo(0, None, None, Going, false, NOTHING_LATCHED, [], [])

  datatype Phase = Hold | Running | Done | Failed

  datatype Output = Output(phase: Phase, index: nat, maxError: real, action: Values, verdict: Verdict)

  /** None is a ValueError. */
  datatype Step = Step(servo: Servo, output: Option<Output>)

  function MaxAbs(v: Values): (m: real)
    ensures forall i | 0 <= i < AXES :: Abs(v[i]) <= m
    ensures exists i :: 0 <= i < AXES && m == Abs(v[i])
  {
    var m := Max(Max(Abs(v[0]), Abs(v[1])), Max(Abs(v[2]), Abs(v[3])));
    assert m == Abs(v[0]) || m == Abs(v[1]) || m == Abs(v[2]) || m == Abs(v[3]);
    m
  }

  /** _servo_axis */
  function ServoAxis(c: Controller, error: real): real {
    if Abs(error) <= c.tolerance then 0.0
    else
      var magnitude := Clamp(Abs(c.kp * error), c.minAction, c.maxAction);
      if error >= 0.0 then magnitude else -magnitude
  }

  function RawError(t: Targets, position: Values): Values {
    seq(AXES, i requires 0 <= i < AXES => if t[i].None? then 0.0 else t[i].value - position[i])
  }

  predicate Within(c: Controller, t: Targets, o: Observation, i: nat)
    requires i < AXES
  {
    t[i].Some? && Abs(t[i].value - o.position[i]) <= c.tolerance
  }

  function Latch(c: Controller, t: Targets, o: Observation, latched: seq<bool>): (l: seq<bool>)
    requires |latched| == AXES
    ensures |l| == AXES
  {
    seq(AXES, i requires 0 <= i < AXES => latched[i] || Within(c, t, o, i))
  }

  function LiveError(t: Targets, position: Values, latched: seq<bool>): Values
    requires |latched| == AXES
  {
    seq(AXES, i requires 0 <= i < AXES => if latched[i] then 0.0 else RawError(t, position)[i])
  }

  function Commands(c: Controller, error: Values): Values {
    seq(AXES, i requires 0 <= i < AXES => ServoAxis(c, error[i]))
  }

  predicate InEnvelope(e: Envelope, o: Observation) {
    && (forall i | 0 <= i < 3 :: e.lower[i] <= o.position[i] <= e.upper[i])
    && o.swing.Some? && (e.swingBounded ==> e.swingLower <= o.swing.value <= e.swingUpper)
  }

  function Terminal(p: Profile, s: Servo, maxError: real): Output
    requires ProfileOk(p)
  {
    Output(if s.verdict.Completed? then Done else Failed, if s.index < |p.steps| then s.index else |p.steps| - 1,
           maxError, ZERO, s.verdict)
  }

  /** The part of step that looks at the current targets. */
  function Track(p: Profile, s: Servo, o: Observation): Step
    requires ProfileOk(p) && s.index < |p.steps| && |s.latched| == AXES
  {
    var t := p.steps[s.index];
    var started := if s.startedAt.None? then o.now else s.startedAt.value;
    var u := s.(startedAt := Some(started));
    if o.now - started >= p.controller.stepTimeout then
      var failed := u.(verdict := TimedOut);
      Step(failed, Some(Terminal(p, failed, MaxAbs(RawError(t, o.position)))))
    else
      var v := u.(latched := Latch(p.controller, t, o, s.latched));
      var error := LiveError(t, o.position, v.latched);
      if MaxAbs(error) <= p.controller.tolerance then
        Step(v.(holdUntil := Some(o.now + p.controller.hold), marks := s.marks + [|s.seen|]),
             Some(Output(Hold, s.index, MaxAbs(error), ZERO, Going)))
      else Step(v, Some(Output(Running, s.index, MaxAbs(error), Commands(p.controller, error), Going)))
  }

  /** _advance */
  function Advanced(s: Servo): Servo {
    s.(index := s.index + 1, startedAt := None, holdUntil := None, latched := NOTHING_LATCHED)
  }

  predicate ServoOk(p: Profile, s: Servo) {
    |s.latched| == AXES && (s.verdict.Going? ==> s.index < |p.steps|)
  }

  /** FixedActionRuntime.step */
  function ServoStep(p: Profile, s: Servo, o: Observation): Step
    requires ProfileOk(p) && ServoOk(p, s)
  {
    if !o.readable || (!s.startChecked && !InEnvelope(p.envelope, o)) then Step(s, None)
    else
      var u := s.(startChecked := true, seen := s.seen + [o]);
      if !s.verdict.Going? then Step(u, Some(Terminal(p, u, 0.0)))
      else if s.holdUntil.Some? then
        if o.now < s.holdUntil.value then Step(u, Some(Output(Hold, s.index, 0.0, ZERO, Going)))
        else
          var next := Advanced(u);
          if next.index >= |p.steps| then
            var done := next.(verdict := Completed);
            Step(done, Some(Terminal(p, done, 0.0)))
          else Track(p, next, o)
      else Track(p, u, o)
  }

  function ServoRun(p: Profile, os: seq<Observation>): (s: Servo)
    requires ProfileOk(p)
    ensures ServoOk(p, s)
  {
    if os == [] then INITIAL else ServoStep(p, ServoRun(p, os[..|os| - 1]), os[|os| - 1]).servo
  }

  // ---------- one step ----------

  /** A command of the current step, given its latches: latched axes and axes
      without a target are commanded zero; some axis is live; and every live axis
      is outside tolerance and driven toward its target with a magnitude between
      the controller's bounds. */
  ghost predicate PointsAtTarget(p: Profile, t: Servo, o: Observation, action: Values) {
    && t.index < |p.steps| && |t.latched| == AXES
    && (exists i :: 0 <= i < AXES && !t.latched[i] && p.steps[t.index][i].Some?)
    && forall i | 0 <= i < AXES :: AxisPoints(p, t, o, action, i)
  }

  predicate AxisPoints(p: Profile, t: Servo, o: Observation, action: Values, i: nat)
    requires t.index < |p.steps| && |t.latched| == AXES && i < AXES
  {
    if t.latched[i] || p.steps[t.index][i].None? then action[i] == 0.0
    else
      var target := p.steps[t.index][i].value;
      && p.controller.minAction <= Abs(action[i]) <= p.controller.maxAction
      && (o.position[i] < target ==> action[i] >= 0.0) && (o.position[i] > target ==> action[i] <= 0.0)
      && Abs(target - o.position[i]) > p.controller.tolerance
  }

  lemma TrackPointsAtTarget(p: Profile, s: Servo, o: Observation)
    requires ProfileOk(p) && s.index < |p.steps| && |s.latched| == AXES
    requires Track(p, s, o).output.Some? && Track(p, s, o).output.value.phase.Running?
    ensures var t := Track(p, s, o).servo;
      && t.index == s.index && PointsAtTarget(p, t, o, Track(p, s, o).output.value.action)
      && forall i | 0 <= i < AXES :: t.latched[i] <==> s.latched[i] || Within(p.controller, p.steps[s.index], o, i)
  {
    LiveCommandsPoint(p, Track(p, s, o).servo, o);
  }

  /** The commands of the live error, while some axis is outside tolerance. */
  lemma LiveCommandsPoint(p: Profile, t: Servo, o: Observation)
    requires ProfileOk(p) && t.index < |p.steps| && |t.latched| == AXES
    requires forall i | 0 <= i < AXES && !t.latched[i] :: !Within(p.controller, p.steps[t.index], o, i)
    requires MaxAbs(LiveError(p.steps[t.index], o.position, t.latched)) > p.controller.tolerance
    ensures PointsAtTarget(p, t, o, Commands(p.controller, LiveError(p.steps[t.index], o.position, t.latched)))
  {
    var error := LiveError(p.steps[t.index], o.position, t.latched);
    var i :| 0 <= i < AXES && MaxAbs(error) == Abs(error[i]);
    assert !t.latched[i] && p.steps[t.index][i].Some?;
    forall k | 0 <= k < AXES ensures AxisPoints(p, t, o, Commands(p.controller, error), k) {
      AxisPointsAtTarget(p, t, o, k);
    }
  }

  lemma AxisPointsAtTarget(p: Profile, t: Servo, o: Observation, k: nat)
    requires ProfileOk(p) && t.index < |p.steps| && |t.latched| == AXES && k < AXES
    requires !t.latched[k] ==> !Within(p.controller, p.steps[t.index], o, k)
    ensures AxisPoints(p, t, o, Commands(p.controller, LiveError(p.steps[t.index], o.position, t.latched)), k)
  {
    var error := if t.latched[k] then 0.0 else RawError(p.steps[t.index], o.position)[k];
    assert Commands(p.controller, LiveError(p.steps[t.index], o.position, t.latched))[k] == ServoAxis(p.controller, error);
  }

  /** Whenever the servo moves, its command points at the targets of the step it
      is then in.  The end of a hold starts the next step with its own latches;
      otherwise the step goes on and its latches only grow. */
  lemma LiveAxesPointAtTarget(p: Profile, s: Servo, o: Observation)
    requires ProfileOk(p) && ServoOk(p, s) && s.verdict.Going?
    requires ServoStep(p, s, o).output.Some? && ServoStep(p, s, o).output.value.phase.Running?
    ensures var t := ServoStep(p, s, o).servo;
      && t.index == s.index + (if s.holdUntil.Some? then 1 else 0)
      && PointsAtTarget(p, t, o, ServoStep(p, s, o).output.value.action)
      && forall i | 0 <= i < AXES ::
           t.latched[i] <==> (s.holdUntil.None? && s.latched[i]) || Within(p.controller, p.steps[t.index], o, i)
  {
    var u := s.(startChecked := true, seen := s.seen + [o]);
    TrackPointsAtTarget(p, if s.holdUntil.Some? then Advanced(u) else u, o);
  }

  /** A terminal result is final, and from then on every command is zero. */
  lemma TerminalIsSticky(p: Profile, s: Servo, o: Observation)
    requires ProfileOk(p) && ServoOk(p, s) && !s.verdict.Going?
    ensures var step := ServoStep(p, s, o);
      && step.servo.verdict == s.verdict && step.servo.index == s.index
      && (step.output.Some? ==> step.output.value.action == ZERO && step.output.value.verdict == s.verdict)
  {}
}
