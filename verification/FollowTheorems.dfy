/** The commands of a whole Follow run. */
module FollowTheorems {
  import opened Wrappers
  import opened Arithmetic
  import opened FixedActions
  import opened Actions
  import opened Trajectory
  import opened Follow

  /** The larger of the two rates. */
  function Rate(c: FollowConfig): real
    requires c.steadyRate.Some?
  {
    if c.startupRate.Some? then Max(c.startupRate.value, c.steadyRate.value) else c.steadyRate.value
  }

  predicate CloseTo(a: Values, b: Values, bound: real) {
    forall i | 0 <= i < AXES :: Abs(a[i] - b[i]) <= bound
  }

  /** No two commands differ by more than the rate allows for the time between
      them, and the first differs from zero by at most rate times 0.05 s. */
  predicate SlewBounded(commands: seq<Command>, rate: real) {
    && (commands != [] ==> CloseTo(commands[0].action, ZERO, MaxDelta(rate, INITIAL_SLEW_ELAPSED_CAP)))
    && (forall i, j | 0 <= i < j < |commands| ::
          && commands[i].at <= commands[j].at
          && CloseTo(commands[j].action, commands[i].action, MaxDelta(rate, commands[j].at - commands[i].at)))
  }

  function Lowest(commands: seq<Command>, axis: nat): real
    requires axis < AXES
  {
    if commands == [] then 0.0 else Min(Lowest(commands[..|commands| - 1], axis), commands[|commands| - 1].target[axis])
  }

  function Highest(commands: seq<Command>, axis: nat): real
    requires axis < AXES
  {
    if commands == [] then 0.0 else Max(Highest(commands[..|commands| - 1], axis), commands[|commands| - 1].target[axis])
  }

  /** Every command lies between the extremes of zero and the targets so far. */
  predicate InHull(commands: seq<Command>) {
    forall k, a | 0 <= k < |commands| && 0 <= a < AXES ::
      Lowest(commands[..k + 1], a) <= commands[k].action[a] <= Highest(commands[..k + 1], a)
  }

  /** What the fields say about the last command while the run is active. */
  predicate Linked(s: FollowState) {
    && (s.hasCommanded <==> s.commands != [])
    && (s.commands == [] ==> s.commanded == ZERO)
    && (s.commands != [] ==>
          && s.commanded == s.commands[|s.commands| - 1].action && s.lastAt.Some?
          && s.commands[|s.commands| - 1].at <= s.lastAt.value
          && (s.result.FollowActive? ==> s.lastAt.value == s.commands[|s.commands| - 1].at))
  }

  predicate FollowOk(c: FollowConfig, s: FollowState)
    requires c.steadyRate.Some?
  {
    StateOk(s) && Linked(s) && SlewBounded(s.commands, Rate(c)) && InHull(s.commands)
  }

  // ---------- one command ----------

  lemma ProductMonotone(a: real, b: real, time: real)
    requires a <= b && time >= 0.0
    ensures MaxDelta(a, time) <= MaxDelta(b, time)
  {}

  lemma ProductAdds(rate: real, t: real, u: real)
    ensures MaxDelta(rate, t) + MaxDelta(rate, u) == MaxDelta(rate, t + u)
  {}

  lemma ProductLonger(rate: real, t: real, u: real)
    requires rate >= 0.0 && t <= u
    ensures MaxDelta(rate, t) <= MaxDelta(rate, u)
  {}

  lemma NextApproaches(desired: real, current: real, pending: bool, startup: real, steady: real, bound: real)
    requires 0.0 <= startup <= bound && 0.0 <= steady <= bound
    ensures var next := NextAxis(desired, current, pending, SlewAxis(desired, current, startup),
                                 SlewAxis(desired, current, steady));
      Abs(next - current) <= bound && Min(desired, current) <= next <= Max(desired, current)
  {}

  predicate Approaches(c: FollowConfig, s: FollowState, target: Values, elapsed: real, next: Values)
    requires c.steadyRate.Some?
  {
    && CloseTo(next, s.commanded, MaxDelta(Rate(c), elapsed))
    && forall i | 0 <= i < AXES :: Min(target[i], s.commanded[i]) <= next[i] <= Max(target[i], s.commanded[i])
  }

  lemma DeltasBounded(c: FollowConfig, elapsed: real)
    requires ConfigOk(c) && c.steadyRate.Some? && elapsed >= 0.0
    ensures 0.0 <= MaxDelta(c.steadyRate.value, elapsed) <= MaxDelta(Rate(c), elapsed)
    ensures c.startupRate.Some? ==> 0.0 <= MaxDelta(c.startupRate.value, elapsed) <= MaxDelta(Rate(c), elapsed)
  {
    ProductMonotone(c.steadyRate.value, Rate(c), elapsed);
    ProductNonnegative(c.steadyRate.value, elapsed);
    if c.startupRate.Some? {
      ProductMonotone(c.startupRate.value, Rate(c), elapsed);
      ProductNonnegative(c.startupRate.value, elapsed);
    }
  }

  /** The next command is within the rate of the previous one, and between it and
      the target; startup can only be lost. */
  lemma LimitedApproaches(c: FollowConfig, s: FollowState, target: Values, elapsed: real)
    requires ConfigOk(c) && c.steadyRate.Some? && |s.pending| == AXES && elapsed >= 0.0
    ensures var limited := Limited(c, s, target, elapsed);
      && limited.Some? && |limited.value.1| == AXES && Approaches(c, s, target, elapsed, limited.value.0)
      && forall i | 0 <= i < AXES :: limited.value.1[i] ==> s.pending[i]
  {
    DeltasBounded(c, elapsed);
    var steady := MaxDelta(c.steadyRate.value, elapsed);
    var startup := if c.startupRate.Some? then MaxDelta(c.startupRate.value, elapsed) else steady;
    var next := Limited(c, s, target, elapsed).value.0;
    forall i | 0 <= i < AXES
      ensures Abs(next[i] - s.commanded[i]) <= MaxDelta(Rate(c), elapsed)
      ensures Min(target[i], s.commanded[i]) <= next[i] <= Max(target[i], s.commanded[i])
    {
      var pending := c.startupRate.Some? && s.pending[i];
      NextApproaches(target[i], s.commanded[i], pending, startup, steady, MaxDelta(Rate(c), elapsed));
      assert next[i] == NextAxis(target[i], s.commanded[i], pending,
        SlewAxis(target[i], s.commanded[i], startup), SlewAxis(target[i], s.commanded[i], steady));
    }
  }

  // ---------- histories ----------

  lemma SlewExtends(commands: seq<Command>, rate: real, next: Command)
    requires rate >= 0.0 && SlewBounded(commands, rate)
    requires commands == [] ==> CloseTo(next.action, ZERO, MaxDelta(rate, INITIAL_SLEW_ELAPSED_CAP))
    requires commands != [] ==>
      var last := commands[|commands| - 1];
      last.at <= next.at && CloseTo(next.action, last.action, MaxDelta(rate, next.at - last.at))
    ensures SlewBounded(commands + [next], rate)
  {
    var more := commands + [next];
    forall i, j | 0 <= i < j < |more|
      ensures more[i].at <= more[j].at &&
              CloseTo(more[j].action, more[i].action, MaxDelta(rate, more[j].at - more[i].at))
    {
      PairExtends(commands, rate, next, i, j);
    }
  }

  lemma PairExtends(commands: seq<Command>, rate: real, next: Command, i: nat, j: nat)
    requires rate >= 0.0 && SlewBounded(commands, rate) && i < j <= |commands|
    requires var last := commands[|commands| - 1];
      last.at <= next.at && CloseTo(next.action, last.action, MaxDelta(rate, next.at - last.at))
    ensures var more := commands + [next];
      more[i].at <= more[j].at && CloseTo(more[j].action, more[i].action, MaxDelta(rate, more[j].at - more[i].at))
  {
    if j == |commands| {
      FromEarlier(commands, rate, next, i);
    }
  }

  lemma FromEarlier(commands: seq<Command>, rate: real, next: Command, i: nat)
    requires rate >= 0.0 && SlewBounded(commands, rate) && i < |commands|
    requires var last := commands[|commands| - 1];
      last.at <= next.at && CloseTo(next.action, last.action, MaxDelta(rate, next.at - last.at))
    ensures commands[i].at <= next.at && CloseTo(next.action, commands[i].action, MaxDelta(rate, next.at - commands[i].at))
  {
    var last := commands[|commands| - 1];
    if i < |commands| - 1 {
      ProductAdds(rate, next.at - last.at, last.at - commands[i].at);
      assert (next.at - last.at) + (last.at - commands[i].at) == next.at - commands[i].at;
      assert CloseTo(last.action, commands[i].action, MaxDelta(rate, last.at - commands[i].at));
    }
  }

  lemma HullExtends(commands: seq<Command>, previous: Values, next: Command)
    requires InHull(commands)
    requires previous == if commands == [] then ZERO else commands[|commands| - 1].action
    requires forall a | 0 <= a < AXES ::
      Min(next.target[a], previous[a]) <= next.action[a] <= Max(next.target[a], previous[a])
    ensures InHull(commands + [next])
  {
    var more := commands + [next];
    forall k, a | 0 <= k < |more| && 0 <= a < AXES
      ensures Lowest(more[..k + 1], a) <= more[k].action[a] <= Highest(more[..k + 1], a)
    {
      if k < |commands| {
        assert more[..k + 1] == commands[..k + 1];
      } else {
        assert more[..k + 1] == more;
        NewestInHull(commands, previous, next, a);
      }
    }
  }

  lemma NewestInHull(commands: seq<Command>, previous: Values, next: Command, a: nat)
    requires InHull(commands) && a < AXES
    requires previous == if commands == [] then ZERO else commands[|commands| - 1].action
    requires Min(next.target[a], previous[a]) <= next.action[a] <= Max(next.target[a], previous[a])
    ensures Lowest(commands + [next], a) <= next.action[a] <= Highest(commands + [next], a)
  {
    var more := commands + [next];
    assert more[..|more| - 1] == commands;
    if commands != [] { assert commands[..|commands| - 1 + 1] == commands; }
  }

  lemma CommandKeeps(c: FollowConfig, s: FollowState, next: Command, elapsed: real)
    requires ConfigOk(c) && c.steadyRate.Some? && FollowOk(c, s) && s.result.FollowActive?
    requires elapsed == SlewElapsed(s, next.at) && (s.lastAt.Some? ==> next.at >= s.lastAt.value)
    requires Approaches(c, s, next.target, elapsed, next.action)
    ensures SlewBounded(s.commands + [next], Rate(c)) && InHull(s.commands + [next])
  {
    ProductLonger(Rate(c), Min(elapsed, INITIAL_SLEW_ELAPSED_CAP), INITIAL_SLEW_ELAPSED_CAP);
    SlewExtends(s.commands, Rate(c), next);
    HullExtends(s.commands, s.commanded, next);
  }

  /** What a step does to the fields the commands depend on. */
  predicate Moves(s: FollowState, t: FollowState, i: Input) {
    && t.commands == s.commands && t.commanded == s.commanded && t.pending == s.pending
    && t.hasCommanded == s.hasCommanded && (t.result.FollowActive? ==> s.result.FollowActive? && t.lastAt == s.lastAt)
    && (t.lastAt == s.lastAt || (t.lastAt == Some(i.now) && (s.lastAt.Some? ==> s.lastAt.value <= i.now)))
  }

  lemma QuietStep(c: FollowConfig, s: FollowState, i: Input)
    requires StateOk(s)
    ensures var step := FollowOnce(c, s, i);
      step.output.None? || !step.output.value.result.FollowActive? ==> Moves(s, step.state, i)
  {}

  lemma FollowKeeps(c: FollowConfig, s: FollowState, i: Input)
    requires ConfigOk(c) && c.steadyRate.Some? && FollowOk(c, s)
    ensures FollowOk(c, FollowOnce(c, s, i).state)
    ensures forall k | 0 <= k < AXES :: FollowOnce(c, s, i).state.pending[k] ==> s.pending[k]
  {
    var step := FollowOnce(c, s, i);
    QuietStep(c, s, i);
    if step.output.Some? && step.output.value.result.FollowActive? {
      ActiveKeeps(c, s, i);
    }
  }

  lemma ActiveKeeps(c: FollowConfig, s: FollowState, i: Input)
    requires ConfigOk(c) && c.steadyRate.Some? && FollowOk(c, s)
    requires FollowOnce(c, s, i).output.Some? && FollowOnce(c, s, i).output.value.result.FollowActive?
    ensures FollowOk(c, FollowOnce(c, s, i).state)
    ensures forall k | 0 <= k < AXES :: FollowOnce(c, s, i).state.pending[k] ==> s.pending[k]
  {
    var t := FollowOnce(c, s, i).state;
    var elapsed := SlewElapsed(s, i.now);
    LimitedApproaches(c, s, i.policy.value, elapsed);
    var next := Command(i.now, t.commanded, i.policy.value);
    CommandKeeps(c, s, next, elapsed);
    assert t.commands == s.commands + [next];
  }

  /** Over a whole run with any machine states, any policy and any exceptions:
      every two commands, and the first one, keep the slew bound; commands never
      leave the hull of zero and the targets; startup once lost never returns. */
  lemma {:induction false} CommandsAreSlewBounded(c: FollowConfig, waypoints: seq<Point>, intermediate: Option<real>,
                                                  slewStarted: Option<real>, inputs: seq<Input>)
    requires ConfigOk(c) && c.steadyRate.Some? && waypoints != [] && (intermediate.Some? ==> intermediate.value > 0.0)
    ensures var s := FollowRun(c, NewFollow(waypoints, c.tolerance, intermediate, slewStarted), inputs);
      && FollowOk(c, s) && SlewBounded(s.commands, Rate(c)) && InHull(s.commands)
  {
    if inputs != [] {
      var before, last := inputs[..|inputs| - 1], inputs[|inputs| - 1];
      CommandsAreSlewBounded(c, waypoints, intermediate, slewStarted, before);
      FollowKeeps(c, FollowRun(c, NewFollow(waypoints, c.tolerance, intermediate, slewStarted), before), last);
    }
  }

  lemma {:induction false} StartupIsLostForGood(c: FollowConfig, s: FollowState, inputs: seq<Input>, axis: nat)
    requires ConfigOk(c) && c.steadyRate.Some? && FollowOk(c, s) && axis < AXES
    ensures FollowOk(c, FollowRun(c, s, inputs))
    ensures FollowRun(c, s, inputs).pending[axis] ==> s.pending[axis]
  {
    if inputs != [] {
      StartupIsLostForGood(c, s, inputs[..|inputs| - 1], axis);
      FollowKeeps(c, FollowRun(c, s, inputs[..|inputs| - 1]), inputs[|inputs| - 1]);
    }
  }

  // ---------- terminal results ----------

  /** A terminal result is final and commands zero; and no step is active once the
      timeout has passed or the tracker has completed. */
  lemma {:induction false} TerminalIsFinal(c: FollowConfig, s: FollowState, inputs: seq<Input>)
    requires StateOk(s) && !s.result.FollowActive?
    ensures var t := FollowRun(c, s, inputs);
      && t.result == s.result && t.commands == s.commands
      && forall i: Input :: FollowOnce(c, t, i).output.Some? ==>
           FollowOnce(c, t, i).output.value == FollowOutput(s.result, ZERO)
  {
    if inputs != [] { TerminalIsFinal(c, s, inputs[..|inputs| - 1]); }
  }

  lemma ActiveMeansInTime(c: FollowConfig, s: FollowState, i: Input)
    requires StateOk(s) && FollowOnce(c, s, i).output.Some? && FollowOnce(c, s, i).output.value.result.FollowActive?
    ensures var t := FollowOnce(c, s, i).state;
      t.startedAt.Some? && i.now - t.startedAt.value < c.timeout && !t.tracker.completed
  {}
}
