/** Slew limiting and the mapping to physical velocity (edge_runtime/actions.py),
    with reals for floats; the checks for non-finite values are not modelled. */
module Actions {
  import opened Wrappers
  import opened Arithmetic
  import opened FixedActions

  /** One axis of slew_limited_normalized_action. */
  function SlewAxis(desired: real, current: real, maxDelta: real): real {
    current + Max(-maxDelta, Min(maxDelta, desired - current))
  }

  /** The furthest an axis may move in a time. */
  function MaxDelta(rate: real, elapsed: real): real { rate * elapsed }

  /** None is the ValueError of an invalid time or rate. */
  function Slew(target: Values, previous: Values, elapsed: real, rate: real): Option<Values> {
    if elapsed < 0.0 || rate <= 0.0 then None
    else Some(seq(AXES, i requires 0 <= i < AXES => SlewAxis(target[i], previous[i], MaxDelta(rate, elapsed))))
  }

  /** math.isclose(a, b, abs_tol=1e-12) */
  predicate IsClose(a: real, b: real) {
    Abs(a - b) <= Max(0.000000001 * Max(Abs(a), Abs(b)), 0.000000000001)
  }

  /** A target farther out on the side the axis is already on. */
  predicate Increasing(desired: real, current: real) {
    desired != 0.0 && (current == 0.0 || ((desired > 0.0) == (current > 0.0))) && Abs(desired) >= Abs(current)
  }

  function NextAxis(desired: real, current: real, pending: bool, startup: real, steady: real): real {
    if pending && Increasing(desired, current) then startup else steady
  }

  function PendingAfter(desired: real, current: real, pending: bool, startup: real): bool {
    && pending
    && (desired == 0.0 || (Increasing(desired, current) && !IsClose(startup, desired)))
  }

  /** dual_rate_slew_limited_normalized_action */
  function DualSlew(target: Values, previous: Values, pending: seq<bool>, elapsed: real, startupRate: real, steadyRate: real)
    : Option<(Values, seq<bool>)>
    requires |pending| == AXES
  {
    if elapsed < 0.0 || startupRate <= 0.0 || steadyRate <= 0.0 then None
    else
      Some((
        seq(AXES, i requires 0 <= i < AXES =>
          NextAxis(target[i], previous[i], pending[i], SlewAxis(target[i], previous[i], MaxDelta(startupRate, elapsed)),
                   SlewAxis(target[i], previous[i], MaxDelta(steadyRate, elapsed)))),
        seq(AXES, i requires 0 <= i < AXES =>
          PendingAfter(target[i], previous[i], pending[i], SlewAxis(target[i], previous[i], MaxDelta(startupRate, elapsed))))))
  }

  /** One axis approaches its target: never past it, never faster than allowed,
      and as fast as allowed. */
  lemma SlewApproaches(desired: real, current: real, maxDelta: real)
    requires maxDelta >= 0.0
    ensures var next := SlewAxis(desired, current, maxDelta);
      && Min(desired, current) <= next <= Max(desired, current)
      && Abs(next - current) == Min(maxDelta, Abs(desired - current))
  {}

  /** With two rates: an axis in startup whose target lies farther out moves by the
      startup rate, any other by the steady one, as far as the target allows. */
  lemma DualAxisMovesAtItsRate(desired: real, current: real, pending: bool, startup: real, steady: real)
    requires startup >= 0.0 && steady >= 0.0
    ensures var next := NextAxis(desired, current, pending, SlewAxis(desired, current, startup),
                                 SlewAxis(desired, current, steady));
      && Min(desired, current) <= next <= Max(desired, current)
      && Abs(next - current) == Min(if pending && Increasing(desired, current) then startup else steady,
                                    Abs(desired - current))
  {
    SlewApproaches(desired, current, startup);
    SlewApproaches(desired, current, steady);
  }

  /** A reduction or reversal ends startup exactly when the new target is not
      zero: a target of zero leaves it pending. */
  lemma ReductionEndsStartupIffNonzero(desired: real, current: real, maxDelta: real)
    requires current != 0.0
    requires Abs(desired) < Abs(current) || (desired > 0.0 && current < 0.0) || (desired < 0.0 && current > 0.0)
    ensures !PendingAfter(desired, current, true, SlewAxis(desired, current, maxDelta)) <==> desired != 0.0
  {}

  // ---------- physical velocity ----------

  datatype AxisProfile = AxisProfile(deadzonePositive: real, deadzoneNegative: real, speedPositive: real, speedNegative: real)

  function PhysicalAxis(a: AxisProfile, value: real): real {
    Scaled(a, Max(-1.0, Min(1.0, value)))
  }

  function AtSpeed(n: real, speed: real): real { n * speed }

  function Scaled(a: AxisProfile, normalized: real): real {
    if Abs(normalized) <= (if normalized >= 0.0 then a.deadzonePositive else a.deadzoneNegative) then 0.0
    else AtSpeed(normalized, if normalized >= 0.0 then a.speedPositive else a.speedNegative)
  }

  /** The physical command keeps the direction of the normalized one and stays
      inside the axis's speed limits; inside the deadzone it is zero. */
  lemma PhysicalKeepsDirection(a: AxisProfile, value: real)
    requires a.speedPositive >= 0.0 && a.speedNegative >= 0.0 && a.deadzonePositive >= 0.0 && a.deadzoneNegative >= 0.0
    ensures var v := PhysicalAxis(a, value);
      && -a.speedNegative <= v <= a.speedPositive
      && (value >= 0.0 ==> v >= 0.0) && (value <= 0.0 ==> v <= 0.0)
      && (-a.deadzoneNegative <= value <= a.deadzonePositive ==> v == 0.0)
  {
    var n := Max(-1.0, Min(1.0, value));
    SpeedBounded(n, a.speedPositive);
    SpeedBounded(n, a.speedNegative);
  }

  lemma SpeedBounded(n: real, speed: real)
    requires -1.0 <= n <= 1.0 && speed >= 0.0
    ensures -speed <= AtSpeed(n, speed) <= speed
    ensures (n >= 0.0 ==> AtSpeed(n, speed) >= 0.0) && (n <= 0.0 ==> AtSpeed(n, speed) <= 0.0)
  {
    ProductNonnegative(1.0 - n, speed);
    ProductNonnegative(n + 1.0, speed);
    assert (1.0 - n) * speed == speed - n * speed;
    assert (n + 1.0) * speed == n * speed + speed;
    if n >= 0.0 {
      ProductNonnegative(n, speed);
    } else {
      ProductNonnegative(-n, speed);
      assert (-n) * speed == -(n * speed);
    }
  }

  lemma ProductNonnegative(a: real, b: real)
    requires a >= 0.0 && b >= 0.0
    ensures a * b >= 0.0
  {}

  /** physical_velocity_from_normalized, which builds its result axis by axis. */
  method PhysicalVelocity(profile: seq<AxisProfile>, action: Values) returns (result: Values)
    requires |profile| == AXES
    ensures forall i | 0 <= i < AXES :: result[i] == PhysicalAxis(profile[i], action[i])
  {
    var built: seq<real> := [];
    var i := 0;
    while i < AXES
      invariant 0 <= i == |built| <= AXES
      invariant forall k | 0 <= k < i :: built[k] == PhysicalAxis(profile[k], action[k])
    {
      var normalized := Max(-1.0, Min(1.0, action[i]));
      var deadzone := if normalized >= 0.0 then profile[i].deadzonePositive else profile[i].deadzoneNegative;
      assert PhysicalAxis(profile[i], action[i]) == Scaled(profile[i], normalized);
      if Abs(normalized) <= deadzone {
        built := built + [0.0];
      } else {
        var speed := if normalized >= 0.0 then profile[i].speedPositive else profile[i].speedNegative;
        built := built + [normalized * speed];
      }
      i := i + 1;
    }
    result := built;
  }
}
