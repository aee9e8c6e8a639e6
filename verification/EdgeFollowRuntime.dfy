/** follow.py, class EdgeFollowRuntime, in place: what its step assigns, in the
    order in which an exception can interrupt it. */
module EdgeFollowRuntimes {
  import opened Wrappers
  import opened Arithmetic
  import opened FixedActions
  import opened Actions
  import opened Trajectory
  import opened Follow

  class EdgeFollowRuntime {
    const cfg: FollowConfig
    var previousCommanded: Values
    var startupPending: seq<bool>
    var lastSourceSeq: Option<int>
    var followStarted: Option<real>
    var lastMonotonic: Option<real>
    var hasCommanded: bool
    var result: FollowResult
    var tracker: Tracker
    var expandFixedEndpoint: bool
    ghost var commands: seq<Command>

    ghost predicate Valid()
      reads this
    {
      StateOk(State())
    }

    ghost function State(): FollowState
      reads this
    {
      FollowState(previousCommanded, startupPending, lastSourceSeq, followStarted, lastMonotonic, hasCommanded, result,
                  tracker, expandFixedEndpoint, commands)
    }

    constructor (cfg: FollowConfig, waypoints: seq<Point>, intermediate: Option<real>, slewStarted: Option<real>)
      requires ConfigOk(cfg) && waypoints != [] && (intermediate.Some? ==> intermediate.value > 0.0)
      ensures Valid() && this.cfg == cfg && State() == NewFollow(waypoints, cfg.tolerance, intermediate, slewStarted)
    {
      this.cfg := cfg;
      previousCommanded, startupPending := ZERO, ALL_PENDING;
      lastSourceSeq, followStarted, lastMonotonic := None, None, slewStarted;
      hasCommanded, result := false, FollowActive;
      tracker := NewTracker(waypoints, cfg.tolerance, intermediate);
      expandFixedEndpoint := |waypoints| == 1;
      commands := [];
    }

    method Step(i: Input) returns (output: Option<FollowOutput>)
      requires Valid()
      modifies this
      ensures Valid() && FollowStep(State(), output) == FollowOnce(cfg, old(State()), i)
    {
      if !i.valid { return None; }
      if lastSourceSeq.Some? && i.sequence <= lastSourceSeq.value { return None; }
      if lastMonotonic.Some? && i.now < lastMonotonic.value { return None; }
      if followStarted.None? {
        followStarted := Some(i.now);
      }
      if result == FollowActive && i.now - followStarted.value >= cfg.timeout {
        result := FollowTimeout;
      }
      if i.tip.None? { return None; }
      if result == FollowActive {
        Track(i.tip.value, i.midpoint);
      }
      output := Conclude(i);
    }

    method Conclude(i: Input) returns (output: Option<FollowOutput>)
      requires Valid()
      modifies this
      ensures Valid() && FollowStep(State(), output) == Concluded(cfg, old(State()), i)
    {
      if !i.observable { return None; }
      var action := ZERO;
      if result == FollowActive {
        if i.policy.None? { return None; }
        var limited := LimitCommand(i.policy.value, i.now);
        if limited.None? { return None; }
        action := limited.value.0;
        previousCommanded := action;
        startupPending := limited.value.1;
        hasCommanded := true;
        commands := commands + [Command(i.now, action, i.policy.value)];
      }
      lastSourceSeq := Some(i.sequence);
      lastMonotonic := Some(i.now);
      output := Some(FollowOutput(result, action));
    }

    method Track(tip: Point, midpoint: Point)
      requires Valid()
      modifies this`tracker, this`expandFixedEndpoint, this`result
      ensures Valid() && State() == Tracked(cfg, old(State()), tip, midpoint)
    {
      if expandFixedEndpoint {
        var target := tracker.waypoints[0];
        if DistanceSquared(tip, target) > cfg.tolerance * cfg.tolerance {
          var via := midpoint;
          if cfg.carryMaterial {
            via := midpoint.(z := Max(midpoint.z, target.z));
          }
          tracker := NewTracker([tip, via, target], tracker.tolerance, tracker.intermediate);
        }
        expandFixedEndpoint := false;
      }
      tracker := Advance(tracker, tip);
      if tracker.completed {
        result := FollowCompleted;
      }
    }

    method LimitCommand(target: Values, now: real) returns (limited: Option<(Values, seq<bool>)>)
      requires Valid()
      ensures limited == Limited(cfg, State(), target, SlewElapsed(State(), now))
    {
      if cfg.steadyRate.None? { return Some((target, startupPending)); }
      var elapsed := if lastMonotonic.None? then 0.0 else now - lastMonotonic.value;
      if !hasCommanded {
        elapsed := Min(elapsed, INITIAL_SLEW_ELAPSED_CAP);
      }
      if cfg.startupRate.None? {
        var slewed := Slew(target, previousCommanded, elapsed, cfg.steadyRate.value);
        if slewed.None? { return None; }
        return Some((slewed.value, startupPending));
      }
      limited := DualSlew(target, previousCommanded, startupPending, elapsed, cfg.startupRate.value, cfg.steadyRate.value);
    }
  }
}
