/** Every command that moves the machine follows the acknowledged claim of its own
    policy, the first motion of a run included. */
module MotionClaims {
  import opened Wrappers
  import opened ResidentMotion
  import opened ResidentSink
  import opened HandoffInvariant
  import opened SinkPreservation
  import opened SinkTheorems
  import opened SinkEffects

  /** Among the first n commands is a zero of this generation in this mode that a
      safe row echoed before the n-th. */
  ghost predicate ZeroOfOwn(log: seq<Write>, seen: seq<Seen>, generation: nat, mode: ControlMode, n: nat) {
    exists k :: 0 <= k < |log| && log[k].generation == generation && ZeroAcked(log, seen, k, n, mode, true)
  }

  ghost predicate MotionsFollowClaims(log: seq<Write>, seen: seq<Seen>) {
    forall b | 0 <= b < |log| && Nonzero(log[b]) :: ZeroOfOwn(log, seen, log[b].generation, log[b].mode, b)
  }

  ghost predicate ActiveHasClaim(s: Sink) {
    Operational(s) && s.authority.phase.Active? && s.authority.active.Some? ==>
      ZeroOfOwn(s.log, s.seen, s.authority.generation, s.authority.active.value.mode, |s.log|)
  }

  ghost predicate Claims(s: Sink) { MotionsFollowClaims(s.log, s.seen) && ActiveHasClaim(s) }

  lemma ZeroOfOwnGrows(s: Sink, t: Sink, generation: nat, mode: ControlMode, n: nat, n': nat)
    requires s.log <= t.log && s.seen <= t.seen && n <= n'
    requires ZeroOfOwn(s.log, s.seen, generation, mode, n)
    ensures ZeroOfOwn(t.log, t.seen, generation, mode, n')
  {
    var k :| 0 <= k < |s.log| && s.log[k].generation == generation && ZeroAcked(s.log, s.seen, k, n, mode, true);
    ZeroAckedGrows(s.log, s.seen, t.log[|s.log|..], t.seen[|s.seen|..], k, n, n', mode, true);
    assert s.log + t.log[|s.log|..] == t.log && s.seen + t.seen[|s.seen|..] == t.seen;
  }

  /** Earlier motions keep their claims, and a new one has that of the active
      policy. */
  lemma MotionsExtend(s: Sink, t: Sink)
    requires Claims(s) && s.log <= t.log && |t.log| <= |s.log| + 1 && s.seen <= t.seen
    requires |t.log| > |s.log| && Nonzero(Last(t)) ==>
               && Operational(s) && s.authority.phase.Active? && s.authority.active.Some?
               && Last(t).generation == s.authority.generation && Last(t).mode == s.authority.active.value.mode
    ensures MotionsFollowClaims(t.log, t.seen)
  {
    forall b | 0 <= b < |t.log| && Nonzero(t.log[b])
      ensures ZeroOfOwn(t.log, t.seen, t.log[b].generation, t.log[b].mode, b)
    {
      if b < |s.log| {
        assert t.log[b] == s.log[b];
      }
      ZeroOfOwnGrows(s, t, t.log[b].generation, t.log[b].mode, b, b);
    }
  }

  lemma CallExtends(cfg: Config, s: Sink, call: Call, ok: bool)
    requires Inv(s)
    ensures var t := Perform(cfg, s, call, ok).sink; s.log <= t.log && |t.log| <= |s.log| + 1 && s.seen <= t.seen
  {
    CallMoves(cfg, s, call, ok);
  }

  lemma CallKeepsMotions(cfg: Config, s: Sink, call: Call, ok: bool)
    requires Inv(s) && Claims(s)
    ensures var t := Perform(cfg, s, call, ok).sink; MotionsFollowClaims(t.log, t.seen)
  {
    var t := Perform(cfg, s, call, ok).sink;
    CallExtends(cfg, s, call, ok);
    if |t.log| > |s.log| && Nonzero(Last(t)) {
      NewMotionIsOwners(cfg, s, call, ok);
    }
    MotionsExtend(s, t);
  }

  lemma NewMotionIsOwners(cfg: Config, s: Sink, call: Call, ok: bool)
    requires Inv(s)
    requires var t := Perform(cfg, s, call, ok).sink; |t.log| > |s.log| && Nonzero(Last(t))
    ensures var t := Perform(cfg, s, call, ok).sink;
      && Operational(s) && s.authority.phase.Active? && s.authority.active.Some?
      && Last(t).generation == s.authority.generation && Last(t).mode == s.authority.active.value.mode
  {
    CallMoves(cfg, s, call, ok);
    PerformKeeps(cfg, s, call, ok);
    HistoriesAreFaithful(cfg, s, call, ok);
    if !Operational(s) && !call.CallInitialize? {
      NeverRearmed(cfg, s, call, ok);
    }
  }

  // ---------- the claim of the active policy ----------

  /** No call but a row makes a policy active. */
  lemma OnlyRowsActivate(cfg: Config, s: Sink, call: Call, ok: bool)
    requires !call.CallInitialize? && !call.CallObserve? && !call.CallInvalidate?
    ensures var t := Perform(cfg, s, call, ok).sink;
      Operational(t) && t.authority.phase.Active? ==> Operational(s) && t.authority == s.authority
  {
    match call
    case CallHandoff(b, now) =>
    case CallStop(now) => StopDeactivates(s, now, None, ok);
    case CallSourceStop(b, g, now) => StopDeactivates(s, now, None, ok);
    case CallSubmit(c, now) =>
      StopDeactivates(s, now, Some(SafetyRejected), ok);
    case CallTick(now) => TickDeactivates(cfg, s, now, ok);
    case CallDisarm(now) =>
  }

  lemma StopDeactivates(s: Sink, now: nat, reason: Option<Reason>, ok: bool)
    ensures !StopAndZero(s, now, reason, ok).sink.authority.phase.Active?
  {}

  lemma TickDeactivates(cfg: Config, s: Sink, now: nat, ok: bool)
    ensures var t := Tick(cfg, s, now, ok).sink;
      Operational(t) && t.authority.phase.Active? ==> Operational(s) && t.authority == s.authority
  {
    StopDeactivates(s, now, Some(CandidateLeaseExpired), ok);
    StopDeactivates(s, now, Some(StateWatchdog), ok);
    StopDeactivates(s.(lease := None), now, Some(StateWatchdog), ok);
  }

  /** The row that acknowledges the target's zero is the claim. */
  lemma AckClaims(cfg: Config, h: Sink, f: Telemetry, ok: bool)
    requires Operational(h) && SinkAgreesWithAuthority(h) && WellShaped(h.authority) && Observing(h, f)
    requires ActiveHasClaim(h)
    ensures ActiveHasClaim(AcknowledgePhase(cfg, h, f, ok).sink)
  {
    var t := AcknowledgePhase(cfg, h, f, ok).sink;
    if Operational(t) && t.authority.phase.Active? && t != h {
      var k := |h.log| - 1;
      assert t.log == h.log && t.seen == h.seen && EchoesZero(h.seen[|h.seen| - 1].frame, h.log[k]);
      assert ZeroAcked(h.log, h.seen, k, |h.log|, t.authority.active.value.mode, true);
    }
  }

  lemma FirstNonzeroKeepsClaim(s: Sink, f: Telemetry)
    requires ActiveHasClaim(s)
    ensures ActiveHasClaim(FirstNonzeroPhase(s, f).sink)
  {
    var first := FirstNonzeroPhase(s, f).sink;
    assert first.log == s.log && first.seen == s.seen && Operational(first) == Operational(s);
  }

  lemma SafetyKeepsClaim(cfg: Config, s: Sink, f: Telemetry, ok: bool)
    requires ActiveHasClaim(s)
    ensures ActiveHasClaim(SafetyPhase(cfg, s, f, ok).sink)
  {
    StopDeactivates(s, f.receivedNs, Some(UnsafeTelemetry), ok);
  }

  lemma ProcessClaims(cfg: Config, h: Sink, f: Telemetry, ok: bool)
    requires Operational(h) && SinkAgreesWithAuthority(h) && WellShaped(h.authority) && Observing(h, f)
    requires ActiveHasClaim(h)
    ensures ActiveHasClaim(ProcessRow(cfg, h, f, ok).sink)
  {
    AckClaims(cfg, h, f, ok);
    var ack := AcknowledgePhase(cfg, h, f, ok).sink;
    FirstNonzeroKeepsClaim(ack, f);
    SafetyKeepsClaim(cfg, FirstNonzeroPhase(ack, f).sink, f, ok);
  }

  lemma RowClaims(cfg: Config, s: Sink, f: Telemetry, ok: bool)
    requires Inv(s) && ActiveHasClaim(s)
    ensures ActiveHasClaim(ObserveLocked(cfg, s, f, ok).sink)
  {
    RecordedKeepsClaim(s, f);
    if Operational(s) && !Regresses(s, f) {
      ProcessClaims(cfg, Recorded(s, f).(telemetry := Some(f)), f, ok);
    }
  }

  lemma RecordedKeepsClaim(s: Sink, f: Telemetry)
    requires ActiveHasClaim(s)
    ensures ActiveHasClaim(Recorded(s, f)) && ActiveHasClaim(Recorded(s, f).(telemetry := Some(f)))
  {
    if Operational(s) && s.authority.phase.Active? && s.authority.active.Some? {
      ZeroOfOwnGrows(s, Recorded(s, f), s.authority.generation, s.authority.active.value.mode, |s.log|, |s.log|);
    }
  }

  lemma NonRowKeepsClaim(cfg: Config, s: Sink, call: Call, ok: bool)
    requires Inv(s) && ActiveHasClaim(s) && !call.CallInitialize? && !call.CallObserve? && !call.CallInvalidate?
    ensures ActiveHasClaim(Perform(cfg, s, call, ok).sink)
  {
    var t := Perform(cfg, s, call, ok).sink;
    OnlyRowsActivate(cfg, s, call, ok);
    CallExtends(cfg, s, call, ok);
    if Operational(t) && t.authority.phase.Active? && t.authority.active.Some? {
      ZeroOfOwnGrows(s, t, s.authority.generation, s.authority.active.value.mode, |s.log|, |t.log|);
    }
  }

  lemma CallKeepsClaim(cfg: Config, s: Sink, call: Call, ok: bool)
    requires Inv(s) && ActiveHasClaim(s)
    ensures ActiveHasClaim(Perform(cfg, s, call, ok).sink)
  {
    if call.CallObserve? {
      if s.synchronized { RowClaims(cfg, s, call.frame, ok); }
    } else if call.CallInvalidate? {
      if s.synchronized { RowClaims(cfg, s, InvalidRow(s.telemetry.value, call.now, call.alive), ok); }
    } else if !call.CallInitialize? {
      NonRowKeepsClaim(cfg, s, call, ok);
    }
  }

  /** Over every run: whatever moves the machine was preceded by a zero of its own
      generation in its own mode that a safe row in that mode echoed. */
  lemma {:induction false} EveryMotionFollowsItsClaim(cfg: Config, calls: seq<TimedCall>)
    ensures Claims(Run(cfg, calls))
  {
    if calls != [] {
      var last := calls[|calls| - 1];
      EveryMotionFollowsItsClaim(cfg, calls[..|calls| - 1]);
      EveryRunKeepsInvariant(cfg, calls[..|calls| - 1]);
      CallKeepsMotions(cfg, Run(cfg, calls[..|calls| - 1]), last.call, last.ok);
      CallKeepsClaim(cfg, Run(cfg, calls[..|calls| - 1]), last.call, last.ok);
    }
  }
}
