/** The mission lease bounds motion in time (edge_runtime/resident_core.py,
    renew_mission_lease and tick).  Only those two calls look at the lease: a
    submission does not, so the bound rests on how far apart they are. */
module MissionLease {
  import opened Wrappers
  import opened ResidentSink
  import opened ResidentCore
  import opened HandoffInvariant
  import opened SinkTheorems
  import opened CoreInvariant
  import opened CorePreservation
  import opened CoreTheorems

  /** The calls that compare the clock with the lease. */
  predicate IsCheck(call: CoreCall) {
    call.CoreCallTick? || (call.CoreCallRenew? && MIN_MISSION_LEASE_MS <= call.leaseMs <= MAX_MISSION_LEASE_MS)
  }

  function LastCheck(calls: seq<TimedCoreCall>): Option<nat> {
    if calls == [] then None
    else
      var last := calls[|calls| - 1].call;
      if IsCheck(last) then Some(last.now) else LastCheck(calls[..|calls| - 1])
  }

  /** The clock does not run backwards between checks, and a worker's
      submission comes at most d after the check before it. */
  predicate InTime(check: Option<nat>, call: CoreCall, d: nat) {
    check.Some? ==>
      && (IsCheck(call) ==> check.value <= call.now)
      && (IsSubmission(call) ==> call.now <= check.value + d)
  }

  predicate Punctual(calls: seq<TimedCoreCall>, d: nat) {
    forall k | 0 <= k < |calls| :: InTime(LastCheck(calls[..k]), calls[k].call, d)
  }

  /** An armed owner was last checked before its deadline. */
  predicate LeaseKept(c: Core, check: Option<nat>) {
    && (!c.sink.synchronized ==> c.deadlineNs.None?)
    && (Operational(c.sink) && c.deadlineNs.Some? ==> check.Some? && check.value < c.deadlineNs.value)
  }

  /** Only a renewal of an operational owner sets a deadline. */
  predicate DeadlineMove(c: Core, d: Core, call: CoreCall) {
    || d.deadlineNs == c.deadlineNs || d.deadlineNs.None?
    || (IsCheck(call) && call.CoreCallRenew? && Operational(c.sink) &&
        d.deadlineNs == Some(call.now + call.leaseMs * 1_000_000))
  }

  lemma DeadlineMoves(cfg: CoreConfig, c: Core, call: CoreCall, ok: bool)
    ensures DeadlineMove(c, PerformCore(cfg, c, call, ok).core, call)
  {
    if call.CoreCallObserve? {
      var step := ObserveTelemetry(cfg.sink, c.sink, call.frame, ok);
      assert AfterObserve(c.(sink := step.sink), call.frame, ok).core.deadlineNs == c.deadlineNs;
    }
  }

  /** A check that finds the lease expired disarms the owner. */
  lemma ExpiredCheckDisarms(cfg: CoreConfig, c: Core, call: CoreCall, ok: bool)
    requires CoreInv(cfg, c) && c.sink.synchronized
    requires IsCheck(call) && c.deadlineNs.Some? && call.now >= c.deadlineNs.value
    ensures var t := PerformCore(cfg, c, call, ok).core.sink; t.synchronized && t.disarmed
  {
    var before := c.(deadlineNs := None);
    DisarmedAfterwards(cfg, c, call.now, ok);
    DisarmedAfterwards(cfg, before, call.now, ok);
  }

  lemma DisarmedAfterwards(cfg: CoreConfig, c: Core, now: nat, ok: bool)
    requires CoreInv(cfg, c) && c.sink.synchronized
    ensures CoreDisarm(c, now, ok).core.sink.synchronized && CoreDisarm(c, now, ok).core.sink.disarmed
  {
    if c.disarmResult.None? {
      if Operational(c.sink) {
        DisarmEndsOnZero(c.sink, now, ok);
        DisarmKeepsSynchronized(c.sink, now, ok);
      }
    }
  }

  lemma DisarmKeepsSynchronized(s: Sink, now: nat, ok: bool)
    ensures TerminallyDisarm(s, now, ok).sink.synchronized == s.synchronized
  {}

  /** A check found the lease expired. */
  predicate Expired(c: Core, call: CoreCall) {
    IsCheck(call) && c.sink.synchronized && c.deadlineNs.Some? && call.now >= c.deadlineNs.value
  }

  /** What the lease argument needs to know about one call. */
  ghost predicate LeaseStep(c: Core, t: Core, call: CoreCall) {
    Effect(c.sink, t.sink, call) && DeadlineMove(c, t, call) && Inv(t.sink) && (Expired(c, call) ==> t.sink.disarmed)
  }

  lemma EveryCallIsALeaseStep(cfg: CoreConfig, c: Core, call: CoreCall, ok: bool)
    requires CoreInv(cfg, c)
    ensures LeaseStep(c, PerformCore(cfg, c, call, ok).core, call)
  {
    OnlySubmissionsMove(cfg, c, call, ok);
    PerformCoreKeeps(cfg, c, call, ok);
    DeadlineMoves(cfg, c, call, ok);
    if Expired(c, call) {
      ExpiredCheckDisarms(cfg, c, call, ok);
    }
  }

  lemma LeaseFollows(c: Core, t: Core, check: Option<nat>, call: CoreCall, d: nat)
    requires LeaseKept(c, check) && InTime(check, call, d) && LeaseStep(c, t, call)
    ensures LeaseKept(t, if IsCheck(call) then Some(call.now) else check)
  {}

  lemma MotionFollows(c: Core, t: Core, check: Option<nat>, call: CoreCall, d: nat)
    requires LeaseKept(c, check) && InTime(check, call, d) && LeaseStep(c, t, call)
    ensures c.sink.log <= t.sink.log
    ensures forall i | |c.sink.log| <= i < |t.sink.log| && Nonzero(t.sink.log[i]) ::
              c.deadlineNs.Some? ==> t.sink.log[i].at < c.deadlineNs.value + d
  {}

  lemma {:induction false} PunctualRunKeepsLease(cfg: CoreConfig, calls: seq<TimedCoreCall>, d: nat)
    requires Punctual(calls, d)
    ensures LeaseKept(RunCore(cfg, calls), LastCheck(calls))
  {
    if calls != [] {
      var n := |calls| - 1;
      var before := calls[..n];
      assert forall k | 0 <= k < n :: before[k] == calls[k] && before[..k] == calls[..k];
      PunctualRunKeepsLease(cfg, before, d);
      EveryCoreRunKeepsInvariant(cfg, before);
      assert InTime(LastCheck(calls[..n]), calls[n].call, d);
      var c := RunCore(cfg, before);
      EveryCallIsALeaseStep(cfg, c, calls[n].call, calls[n].ok);
      LeaseFollows(c, PerformCore(cfg, c, calls[n].call, calls[n].ok).core, LastCheck(before), calls[n].call, d);
    }
  }

  /** With checks at most d apart, whatever a call adds to the log that moves the
      machine is stamped before the deadline then in force, plus d. */
  lemma MissionLeaseBoundsMotion(cfg: CoreConfig, calls: seq<TimedCoreCall>, next: TimedCoreCall, d: nat)
    requires Punctual(calls + [next], d)
    ensures var c := RunCore(cfg, calls); var t := PerformCore(cfg, c, next.call, next.ok).core.sink;
      c.sink.log <= t.log &&
      forall i | |c.sink.log| <= i < |t.log| && Nonzero(t.log[i]) ::
        c.deadlineNs.Some? ==> t.log[i].at < c.deadlineNs.value + d
  {
    var c := RunCore(cfg, calls);
    var all := calls + [next];
    assert all[..|calls|] == calls && all[|calls|] == next;
    assert forall k | 0 <= k < |calls| :: all[k] == calls[k] && all[..k] == calls[..k];
    assert InTime(LastCheck(all[..|calls|]), all[|calls|].call, d);
    EveryCoreRunKeepsInvariant(cfg, calls);
    PunctualRunKeepsLease(cfg, calls, d);
    EveryCallIsALeaseStep(cfg, c, next.call, next.ok);
    MotionFollows(c, PerformCore(cfg, c, next.call, next.ok).core, LastCheck(calls), next.call, d);
  }

  function RunCoreFrom(cfg: CoreConfig, c: Core, calls: seq<TimedCoreCall>): Core
    decreases |calls|
  {
    if calls == [] then c else RunCoreFrom(cfg, PerformCore(cfg, c, calls[0].call, calls[0].ok).core, calls[1..])
  }

  /** A disarmed owner stays disarmed and silent, whatever is called. */
  lemma {:induction false} DisarmedOwnerIsSilent(cfg: CoreConfig, c: Core, calls: seq<TimedCoreCall>)
    requires CoreInv(cfg, c) && c.sink.synchronized && c.sink.disarmed
    ensures OnlyRowsChange(c.sink, RunCoreFrom(cfg, c, calls).sink)
    decreases |calls|
  {
    if calls != [] {
      var call := calls[0];
      OnlySubmissionsMove(cfg, c, call.call, call.ok);
      PerformCoreKeeps(cfg, c, call.call, call.ok);
      DisarmedOwnerIsSilent(cfg, PerformCore(cfg, c, call.call, call.ok).core, calls[1..]);
    }
  }

  /** Once a tick or a renewal sees the expired lease, no later call makes the
      owner operational again or writes another command. */
  lemma ExpiredLeaseIsFinal(cfg: CoreConfig, before: seq<TimedCoreCall>, check: TimedCoreCall, later: seq<TimedCoreCall>)
    requires IsCheck(check.call)
    requires var c := RunCore(cfg, before);
      c.sink.synchronized && c.deadlineNs.Some? && check.call.now >= c.deadlineNs.value
    ensures var e := PerformCore(cfg, RunCore(cfg, before), check.call, check.ok).core;
      var f := RunCoreFrom(cfg, e, later);
      !Operational(f.sink) && f.sink.log == e.sink.log
  {
    var c := RunCore(cfg, before);
    EveryCoreRunKeepsInvariant(cfg, before);
    ExpiredCheckDisarms(cfg, c, check.call, check.ok);
    PerformCoreKeeps(cfg, c, check.call, check.ok);
    DisarmedOwnerIsSilent(cfg, PerformCore(cfg, c, check.call, check.ok).core, later);
  }
}
