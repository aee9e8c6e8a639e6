/** fixed_actions.py, class FixedActionRuntime, in place. */
module FixedActionRuntimes {
  import opened Wrappers
  import opened FixedActions

  class FixedActionRuntime {
    const profile: Profile
    var stepIndex: nat
    var stepStartedAt: Option<real>
    var holdUntil: Option<real>
    var verdict: Verdict
    var startChecked: bool
    var latchedAxes: seq<bool>
    ghost var seen: seq<Observation>
    ghost var marks: seq<nat>

    ghost predicate Valid()
      reads this
    {
      ProfileOk(profile) && ServoOk(profile, State())
    }

    ghost function State(): Servo
      reads this
    {
      Servo(stepIndex, stepStartedAt, holdUntil, verdict, startChecked, latchedAxes, seen, marks)
    }

    constructor (profile: Profile)
      requires ProfileOk(profile)
      ensures Valid() && this.profile == profile && State() == INITIAL
    {
      this.profile := profile;
      stepIndex, stepStartedAt, holdUntil, verdict := 0, None, None, Going;
      startChecked, latchedAxes, seen, marks := false, NOTHING_LATCHED, [], [];
    }

    method Step(o: Observation) returns (output: Option<Output>)
      requires Valid()
      modifies this
      ensures Valid() && FixedActions.Step(State(), output) == ServoStep(profile, old(State()), o)
    {
      if !o.readable { return None; }
      if !startChecked {
        if !InEnvelope(profile.envelope, o) { return None; }
        startChecked := true;
      }
      seen := seen + [o];
      if verdict != Going { return Some(Ended(0.0)); }
      if holdUntil.Some? {
        if o.now < holdUntil.value { return Some(Output(Hold, stepIndex, 0.0, ZERO, Going)); }
        Advance();
        if stepIndex >= |profile.steps| {
          verdict := Completed;
          return Some(Ended(0.0));
        }
      }
      output := TrackTargets(o);
    }

    method Advance()
      modifies this
      ensures State() == Advanced(old(State()))
    {
      stepIndex := stepIndex + 1;
      stepStartedAt := None;
      holdUntil := None;
      latchedAxes := NOTHING_LATCHED;
    }

    function Ended(maxError: real): (output: Output)
      requires Valid()
      reads this
      ensures output == Terminal(profile, State(), maxError)
    {
      Output(if verdict == Completed then Done else Failed,
             if stepIndex < |profile.steps| then stepIndex else |profile.steps| - 1, maxError, ZERO, verdict)
    }

    method TrackTargets(o: Observation) returns (output: Option<Output>)
      requires Valid() && verdict.Going?
      modifies this
      ensures Valid() && FixedActions.Step(State(), output) == Track(profile, old(State()), o)
    {
      var controller := profile.controller;
      if stepStartedAt.None? {
        stepStartedAt := Some(o.now);
      }
      var targets := profile.steps[stepIndex];
      var rawError := RawError(targets, o.position);
      if o.now - stepStartedAt.value >= controller.stepTimeout {
        verdict := TimedOut;
        return Some(Ended(MaxAbs(rawError)));
      }
      latchedAxes := Latch(controller, targets, o, latchedAxes);
      var error := LiveError(targets, o.position, latchedAxes);
      var maxError := MaxAbs(error);
      if maxError <= controller.tolerance {
        holdUntil := Some(o.now + controller.hold);
        marks := marks + [|seen|];
        return Some(Output(Hold, stepIndex, maxError, ZERO, Going));
      }
      output := Some(Output(Running, stepIndex, maxError, Commands(controller, error), Going));
    }
  }
}
