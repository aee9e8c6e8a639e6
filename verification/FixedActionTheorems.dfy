/** What a fixed action has shown when it completes, and when it must have ended. */
module FixedActionTheorems {
  import opened Arithmetic
  import opened FixedActions

  // ---------- completion ----------

  /** The servo with one more accepted observation. */
  function Observed(s: Servo, o: Observation): Servo { s.(startChecked := true, seen := s.seen + [o]) }

  function From(marks: seq<nat>, j: nat): nat
    requires j <= |marks|
  {
    if j == 0 then 0 else marks[j - 1]
  }

  /** Every targeted axis of a step was seen within tolerance in a stretch of the
      accepted observations. */
  ghost predicate SeenWithin(c: Controller, t: Targets, seen: seq<Observation>, lo: nat, hi: nat)
    requires hi <= |seen|
  {
    forall i | 0 <= i < AXES && t[i].Some? :: exists k :: lo <= k < hi && Within(c, t, seen[k], i)
  }

  /** The steps reached so far, in order, each in its own stretch. */
  ghost predicate ReachedInOrder(p: Profile, seen: seq<Observation>, marks: seq<nat>) {
    && |marks| <= |p.steps|
    && (forall j | 0 <= j < |marks| :: From(marks, j) < marks[j] <= |seen|)
    && (forall j | 0 <= j < |marks| :: SeenWithin(p.controller, p.steps[j], seen, From(marks, j), marks[j]))
  }

  ghost predicate Progress(p: Profile, s: Servo) {
    && ServoOk(p, s) && ReachedInOrder(p, s.seen, s.marks)
    && (s.verdict.Completed? ==> |s.marks| == |p.steps|)
    && (s.verdict.Going? && s.holdUntil.Some? ==> |s.marks| == s.index + 1)
    && (s.verdict.Going? && s.holdUntil.None? ==>
          && |s.marks| == s.index
          && forall i | 0 <= i < AXES && s.latched[i] ::
               exists k :: From(s.marks, s.index) <= k < |s.seen| && Within(p.controller, p.steps[s.index], s.seen[k], i))
  }

  lemma SeenGrows(c: Controller, t: Targets, seen: seq<Observation>, o: Observation, lo: nat, hi: nat)
    requires hi <= |seen| && SeenWithin(c, t, seen, lo, hi)
    ensures SeenWithin(c, t, seen + [o], lo, hi)
  {
    forall i | 0 <= i < AXES && t[i].Some? ensures exists k :: lo <= k < hi && Within(c, t, (seen + [o])[k], i) {
      var k :| lo <= k < hi && Within(c, t, seen[k], i);
      assert (seen + [o])[k] == seen[k];
    }
  }

  lemma OrderGrows(p: Profile, seen: seq<Observation>, marks: seq<nat>, o: Observation)
    requires ReachedInOrder(p, seen, marks)
    ensures ReachedInOrder(p, seen + [o], marks)
  {
    forall j | 0 <= j < |marks| ensures SeenWithin(p.controller, p.steps[j], seen + [o], From(marks, j), marks[j]) {
      SeenGrows(p.controller, p.steps[j], seen, o, From(marks, j), marks[j]);
    }
  }

  lemma OneMoreReached(p: Profile, seen: seq<Observation>, marks: seq<nat>)
    requires ReachedInOrder(p, seen, marks) && |marks| < |p.steps| && From(marks, |marks|) < |seen|
    requires SeenWithin(p.controller, p.steps[|marks|], seen, From(marks, |marks|), |seen|)
    ensures ReachedInOrder(p, seen, marks + [|seen|])
  {
    var more := marks + [|seen|];
    forall j | 0 <= j < |more|
      ensures From(more, j) < more[j] <= |seen| && SeenWithin(p.controller, p.steps[j], seen, From(more, j), more[j])
    {
      if j < |marks| {
        assert more[j] == marks[j] && From(more, j) == From(marks, j);
      } else {
        assert more[j] == |seen| && From(more, j) == From(marks, j);
      }
    }
  }

  /** The latches after one more observation. */
  lemma TrackProgress(p: Profile, s: Servo, o: Observation)
    requires ProfileOk(p) && Progress(p, s) && s.verdict.Going? && s.holdUntil.None?
    requires s.seen != [] && s.seen[|s.seen| - 1] == o && From(s.marks, s.index) < |s.seen|
    ensures Progress(p, Track(p, s, o).servo)
  {
    var t := p.steps[s.index];
    var latched := Latch(p.controller, t, o, s.latched);
    var lo := From(s.marks, s.index);
    forall i | 0 <= i < AXES && latched[i]
      ensures exists k :: lo <= k < |s.seen| && Within(p.controller, t, s.seen[k], i)
    {
      if !s.latched[i] { assert Within(p.controller, t, s.seen[|s.seen| - 1], i); }
    }
    var error := LiveError(t, o.position, latched);
    if MaxAbs(error) <= p.controller.tolerance {
      forall i | 0 <= i < AXES && t[i].Some? ensures latched[i] {
        assert Abs(error[i]) <= p.controller.tolerance;
      }
      OneMoreReached(p, s.seen, s.marks);
    }
  }

  /** The latches, with one more accepted observation behind them. */
  lemma LatchesGrow(p: Profile, s: Servo, o: Observation)
    requires Progress(p, s) && s.verdict.Going? && s.holdUntil.None?
    ensures Progress(p, Observed(s, o))
  {
    var u := Observed(s, o);
    OrderGrows(p, s.seen, s.marks, o);
    forall i | 0 <= i < AXES && u.latched[i]
      ensures exists k :: From(u.marks, u.index) <= k < |u.seen| && Within(p.controller, p.steps[u.index], u.seen[k], i)
    {
      var k :| From(s.marks, s.index) <= k < |s.seen| && Within(p.controller, p.steps[s.index], s.seen[k], i);
      assert u.seen[k] == s.seen[k];
    }
  }

  /** The next step starts with no latch and an empty stretch. */
  lemma NextStepProgress(p: Profile, s: Servo, o: Observation)
    requires Progress(p, s) && s.verdict.Going? && s.holdUntil.Some? && s.index + 1 < |p.steps|
    ensures Progress(p, Advanced(Observed(s, o)))
  {
    OrderGrows(p, s.seen, s.marks, o);
  }

  lemma StillProgress(p: Profile, s: Servo, o: Observation)
    requires Progress(p, s)
    requires !s.verdict.Going? || s.holdUntil.Some?
    ensures Progress(p, Observed(s, o))
    ensures s.verdict.Going? && s.index + 1 == |p.steps| ==>
              Progress(p, Advanced(Observed(s, o)).(verdict := Completed))
  {
    OrderGrows(p, s.seen, s.marks, o);
  }

  lemma StepProgress(p: Profile, s: Servo, o: Observation)
    requires ProfileOk(p) && Progress(p, s)
    ensures Progress(p, ServoStep(p, s, o).servo)
  {
    if ServoStep(p, s, o).output.Some? {
      if s.verdict.Going? && s.holdUntil.None? {
        LatchesGrow(p, s, o);
        TrackProgress(p, Observed(s, o), o);
      } else if s.verdict.Going? && o.now >= s.holdUntil.value && s.index + 1 < |p.steps| {
        NextStepProgress(p, s, o);
        TrackProgress(p, Advanced(Observed(s, o)), o);
      } else {
        StillProgress(p, s, o);
      }
    }
  }

  /** A completed action has seen every targeted axis of every step within
      tolerance, step after step, in disjoint stretches of what it observed. */
  lemma {:induction false} CompletedMeansReached(p: Profile, os: seq<Observation>)
    requires ProfileOk(p)
    ensures var s := ServoRun(p, os);
      Progress(p, s) && (s.verdict.Completed? ==> |s.marks| == |p.steps| && ReachedInOrder(p, s.seen, s.marks))
  {
    if os != [] {
      CompletedMeansReached(p, os[..|os| - 1]);
      StepProgress(p, ServoRun(p, os[..|os| - 1]), os[|os| - 1]);
    }
  }

  // ---------- termination in time ----------

  /** n times b. */
  function Times(n: nat, b: real): real { if n == 0 then 0.0 else Times(n - 1, b) + b }

  lemma {:induction false} TimesIsProduct(n: nat, b: real)
    ensures (n as real) * b == Times(n, b)
  {
    if n > 0 {
      TimesIsProduct(n - 1, b);
      assert (n as real) * b == ((n - 1) as real) * b + b;
    }
  }

  lemma {:induction false} TimesGrows(m: nat, n: nat, b: real)
    requires m <= n && b >= 0.0
    ensures Times(m, b) <= Times(n, b)
  {
    if m < n { TimesGrows(m, n - 1, b); }
  }

  /** The longest one step can take between its start and that of the next. */
  function Budget(p: Profile, gap: real): real { p.controller.stepTimeout + p.controller.hold + gap }

  /** Accepted observations come in order, at most gap apart. */
  predicate Steady(seen: seq<Observation>, gap: real) {
    forall k | 0 < k < |seen| :: seen[k - 1].now <= seen[k].now <= seen[k - 1].now + gap
  }

  predicate Timely(p: Profile, s: Servo, gap: real) {
    && ServoOk(p, s)
    && (s.seen == [] ==> s.verdict.Going? && s.startedAt.None? && s.holdUntil.None? && s.index == 0)
    && (s.seen != [] && s.verdict.Going? ==>
          var t0, last := s.seen[0].now, s.seen[|s.seen| - 1].now;
          && s.startedAt.Some?
          && t0 <= s.startedAt.value <= t0 + Times(s.index, Budget(p, gap))
          && (if s.holdUntil.None? then last < s.startedAt.value + p.controller.stepTimeout
              else last <= s.holdUntil.value < s.startedAt.value + p.controller.stepTimeout + p.controller.hold))
  }

  /** A step that starts, goes on or is reached at an observation. */
  lemma TrackTimely(p: Profile, s: Servo, o: Observation, gap: real)
    requires ProfileOk(p) && gap >= 0.0 && s.verdict.Going? && ServoOk(p, s)
    requires s.seen != [] && s.seen[|s.seen| - 1] == o && s.seen[0].now <= o.now
    requires s.startedAt.None? ==> o.now <= s.seen[0].now + Times(s.index, Budget(p, gap))
    requires s.startedAt.Some? ==> s.seen[0].now <= s.startedAt.value <= s.seen[0].now + Times(s.index, Budget(p, gap))
    requires s.holdUntil.None?
    ensures Timely(p, Track(p, s, o).servo, gap)
  {}

  /** The new observation follows the others steadily. */
  lemma ObservedFollows(s: Servo, o: Observation, gap: real)
    requires s.seen != [] && Steady(s.seen + [o], gap)
    ensures var u := Observed(s, o); var n := |s.seen|;
      && u.seen[0] == s.seen[0] && u.seen[n] == o && s.seen[0].now <= o.now
      && s.seen[n - 1].now <= o.now <= s.seen[n - 1].now + gap
  {
    var seen := s.seen + [o];
    assert seen[|s.seen| - 1] == s.seen[|s.seen| - 1];
    FirstIsEarliest(seen, gap, |s.seen|);
  }

  lemma RunningTimely(p: Profile, s: Servo, o: Observation, gap: real)
    requires ProfileOk(p) && Timely(p, s, gap) && gap >= 0.0 && s.verdict.Going? && s.holdUntil.None?
    requires Steady(s.seen + [o], gap)
    ensures Timely(p, Track(p, Observed(s, o), o).servo, gap)
  {}

  lemma HeldTimely(p: Profile, s: Servo, o: Observation, gap: real)
    requires ProfileOk(p) && Timely(p, s, gap) && gap >= 0.0 && s.verdict.Going? && s.holdUntil.Some?
    requires Steady(s.seen + [o], gap)
    ensures o.now < s.holdUntil.value ==> Timely(p, Observed(s, o), gap)
    ensures o.now >= s.holdUntil.value && s.index + 1 < |p.steps| ==>
              Timely(p, Track(p, Advanced(Observed(s, o)), o).servo, gap)
  {
    ObservedFollows(s, o, gap);
    if o.now >= s.holdUntil.value && s.index + 1 < |p.steps| {
      TrackTimely(p, Advanced(Observed(s, o)), o, gap);
    }
  }

  lemma StepTimely(p: Profile, s: Servo, o: Observation, gap: real)
    requires ProfileOk(p) && Timely(p, s, gap) && gap >= 0.0
    requires Steady(ServoStep(p, s, o).servo.seen, gap)
    ensures Timely(p, ServoStep(p, s, o).servo, gap)
  {
    var step := ServoStep(p, s, o);
    if step.output.Some? && s.verdict.Going? {
      assert step.servo.seen == s.seen + [o];
      if s.holdUntil.None? {
        RunningTimely(p, s, o, gap);
      } else {
        HeldTimely(p, s, o, gap);
      }
    }
  }

  lemma {:induction false} FirstIsEarliest(seen: seq<Observation>, gap: real, k: nat)
    requires Steady(seen, gap) && k < |seen|
    ensures seen[0].now <= seen[k].now
  {
    if k > 0 { FirstIsEarliest(seen, gap, k - 1); }
  }

  lemma {:induction false} RunIsTimely(p: Profile, os: seq<Observation>, gap: real)
    requires ProfileOk(p) && gap >= 0.0 && Steady(ServoRun(p, os).seen, gap)
    ensures Timely(p, ServoRun(p, os), gap)
  {
    if os != [] {
      var before := ServoRun(p, os[..|os| - 1]);
      var after := ServoStep(p, before, os[|os| - 1]).servo;
      assert before.seen <= after.seen;
      assert forall k | 0 <= k < |before.seen| :: before.seen[k] == after.seen[k];
      RunIsTimely(p, os[..|os| - 1], gap);
      StepTimely(p, before, os[|os| - 1], gap);
    }
  }

  /** An action that is still going was last seen before its bound. */
  lemma GoingIsInTime(p: Profile, s: Servo, gap: real)
    requires ProfileOk(p) && gap >= 0.0 && Timely(p, s, gap) && s.verdict.Going? && s.seen != []
    ensures s.seen[|s.seen| - 1].now < s.seen[0].now + Times(|p.steps|, Budget(p, gap))
  {
    TimesGrows(s.index + 1, |p.steps|, Budget(p, gap));
  }

  lemma GoingIsWithinProduct(p: Profile, s: Servo, gap: real)
    requires ProfileOk(p) && gap >= 0.0 && Timely(p, s, gap) && s.verdict.Going? && s.seen != []
    ensures s.seen[|s.seen| - 1].now < s.seen[0].now + (|p.steps| as real) * Budget(p, gap)
  {
    GoingIsInTime(p, s, gap);
    TimesIsProduct(|p.steps|, Budget(p, gap));
  }

  /** With accepted observations at most gap apart, n steps have ended, one way or
      the other, by t0 + n * (step_timeout + hold + gap). */
  lemma {:induction false} ActionEndsInTime(p: Profile, os: seq<Observation>, gap: real, s: Servo)
    requires ProfileOk(p) && gap >= 0.0 && s == ServoRun(p, os)
    requires Steady(s.seen, gap) && s.seen != []
    requires s.seen[|s.seen| - 1].now >= s.seen[0].now + (|p.steps| as real) * Budget(p, gap)
    ensures !s.verdict.Going?
  {
    RunIsTimely(p, os, gap);
    if s.verdict.Going? {
      GoingIsWithinProduct(p, s, gap);
    }
  }
}
