/** The evidence behind a handoff is in rows that were handed in, not in those the
    sink makes up: over a causal run whatever a made-up row echoes was echoed by a
    row handed in since. */
module HandedRows {
  import opened Wrappers
  import opened ResidentMotion
  import opened ResidentSink
  import opened HandoffInvariant
  import opened SinkPreservation
  import opened SinkTheorems
  import opened SinkEffects
  import opened MotionClaims
  import opened InvalidRows

  /** The rows observe_telemetry recorded in a run, each with the number of commands
      written before it. */
  function Handed(cfg: Config, calls: seq<TimedCall>): seq<Seen> {
    if calls == [] then []
    else
      var n := |calls| - 1;
      Handed(cfg, calls[..n]) + HandedBy(Run(cfg, calls[..n]), calls[n].call)
  }

  function HandedBy(s: Sink, call: Call): seq<Seen> {
    if call.CallObserve? && s.synchronized then [Seen(call.frame, |s.log|)] else []
  }

  /** Whatever a row echoes, a handed-in row echoed after the same command; a safe
      row is one itself. */
  ghost predicate RowBacked(log: seq<Write>, handed: seq<Seen>, x: Seen) {
    x in handed ||
    (!x.frame.sensorValid && forall i | 0 <= i < |log| && i < x.at && EchoesZero(x.frame, log[i]) ::
       EchoHanded(handed, log[i], i, x.at))
  }

  ghost predicate EchoHanded(handed: seq<Seen>, w: Write, i: nat, n: nat) {
    exists y :: y in handed && i < y.at <= n && EchoesZero(y.frame, w)
  }

  /** The same for the current row. */
  ghost predicate CurrentBacked(s: Sink, handed: seq<Seen>) {
    s.telemetry.Some? ==>
      forall i | 0 <= i < |s.log| && EchoesZero(s.telemetry.value, s.log[i]) :: EchoHanded(handed, s.log[i], i, |s.log|)
  }

  ghost predicate RowsBacked(log: seq<Write>, seen: seq<Seen>, handed: seq<Seen>) {
    forall j | 0 <= j < |seen| :: seen[j].at <= |log| && RowBacked(log, handed, seen[j])
  }

  ghost predicate HandedOk(s: Sink, handed: seq<Seen>) { RowsBacked(s.log, s.seen, handed) && CurrentBacked(s, handed) }

  lemma EchoHandedGrows(handed: seq<Seen>, more: seq<Seen>, w: Write, i: nat, n: nat, n': nat)
    requires EchoHanded(handed, w, i, n) && n <= n'
    ensures EchoHanded(handed + more, w, i, n')
  {
    var y :| y in handed && i < y.at <= n && EchoesZero(y.frame, w);
    assert y in handed + more;
  }

  /** More commands and more rows leave old rows backed. */
  lemma RowBackedGrows(log: seq<Write>, log': seq<Write>, handed: seq<Seen>, more: seq<Seen>, x: Seen)
    requires RowBacked(log, handed, x) && log <= log' && x.at <= |log|
    ensures RowBacked(log', handed + more, x)
  {
    if x !in handed {
      forall i | 0 <= i < |log'| && i < x.at && EchoesZero(x.frame, log'[i])
        ensures EchoHanded(handed + more, log'[i], i, x.at)
      {
        EchoHandedGrows(handed, more, log[i], i, x.at, x.at);
      }
    }
  }

  lemma RowsBackedGrow(s: Sink, t: Sink, handed: seq<Seen>, more: seq<Seen>)
    requires RowsBacked(s.log, s.seen, handed) && s.log <= t.log && s.seen <= t.seen
    requires forall j | |s.seen| <= j < |t.seen| :: t.seen[j].at <= |t.log| && RowBacked(t.log, handed + more, t.seen[j])
    ensures RowsBacked(t.log, t.seen, handed + more)
  {
    forall j | 0 <= j < |t.seen| ensures t.seen[j].at <= |t.log| && RowBacked(t.log, handed + more, t.seen[j]) {
      if j < |s.seen| {
        assert t.seen[j] == s.seen[j];
        RowBackedGrows(s.log, t.log, handed, more, s.seen[j]);
      }
    }
  }

  predicate SameEcho(f: Telemetry, g: Telemetry) {
    f.rxSeq == g.rxSeq && CommandLive(f) == CommandLive(g) && f.mode == g.mode && f.action == g.action
  }

  /** The current row stays backed while no new command carries its number. */
  lemma CurrentGrows(s: Sink, t: Sink, handed: seq<Seen>, more: seq<Seen>)
    requires CurrentBacked(s, handed) && s.telemetry.Some? && t.telemetry.Some?
    requires SameEcho(s.telemetry.value, t.telemetry.value)
    requires s.log <= t.log && forall i | |s.log| <= i < |t.log| :: t.log[i].commandSeq == s.nextSequence
    requires NotAhead(s.nextSequence, s.telemetry.value)
    ensures CurrentBacked(t, handed + more)
  {
    forall i | 0 <= i < |t.log| && EchoesZero(t.telemetry.value, t.log[i])
      ensures EchoHanded(handed + more, t.log[i], i, |t.log|)
    {
      assert i < |s.log| && t.log[i] == s.log[i];
      EchoHandedGrows(handed, more, s.log[i], i, |s.log|, |t.log|);
    }
  }

  /** A row handed in backs itself. */
  lemma HandedBacksItself(s: Sink, t: Sink, handed: seq<Seen>, f: Telemetry)
    requires t.telemetry == Some(f) && NotAhead(s.nextSequence, f)
    requires s.log <= t.log && forall i | |s.log| <= i < |t.log| :: t.log[i].commandSeq == s.nextSequence
    ensures CurrentBacked(t, handed + [Seen(f, |s.log|)])
  {
    var all := handed + [Seen(f, |s.log|)];
    forall i | 0 <= i < |t.log| && EchoesZero(f, t.log[i]) ensures EchoHanded(all, t.log[i], i, |t.log|) {
      assert i < |s.log|;
      assert Seen(f, |s.log|) in all;
    }
  }

  /** A row made up after the current one is backed like it. */
  lemma MadeUpIsBacked(s: Sink, t: Sink, handed: seq<Seen>, row: Telemetry)
    requires CurrentBacked(s, handed) && s.telemetry.Some? && SameEcho(s.telemetry.value, row) && !row.sensorValid
    requires s.log <= t.log
    ensures RowBacked(t.log, handed, Seen(row, |s.log|))
  {
    forall i | 0 <= i < |t.log| && i < |s.log| && EchoesZero(row, t.log[i])
      ensures EchoHanded(handed, t.log[i], i, |s.log|)
    {
      assert EchoesZero(s.telemetry.value, s.log[i]);
    }
  }

  // ---------- one call ----------

  lemma NextInOrder(s: Sink, t: Sink)
    requires s.log <= t.log && |t.log| == |s.log| + 1 && GaplessFrom(t.start, t.log)
    requires s.nextSequence == Expected(s) && t.start == s.start
    ensures t.log[|s.log|].commandSeq == s.nextSequence
  {}

  lemma NewCommandIsNext(cfg: Config, s: Sink, call: Call, ok: bool)
    requires Inv(s)
    ensures var t := Perform(cfg, s, call, ok).sink;
      s.log <= t.log && forall i | |s.log| <= i < |t.log| :: t.log[i].commandSeq == s.nextSequence
  {
    var t := Perform(cfg, s, call, ok).sink;
    CallExtends(cfg, s, call, ok);
    if |t.log| > |s.log| {
      PerformKeeps(cfg, s, call, ok);
      WriterIsOperational(cfg, s, call, ok);
      HistoriesAreFaithful(cfg, s, call, ok);
      NextInOrder(s, t);
    }
  }

  lemma WriterIsOperational(cfg: Config, s: Sink, call: Call, ok: bool)
    requires Inv(s) && |Perform(cfg, s, call, ok).sink.log| > |s.log|
    ensures Operational(s) && !call.CallInitialize?
  {
    if !Operational(s) && !call.CallInitialize? {
      NeverRearmed(cfg, s, call, ok);
    }
  }

  /** Calls without a row leave the rows alone. */
  predicate RowsKept(s: Sink, t: Sink) { t.seen == s.seen && t.telemetry == s.telemetry }

  lemma StopKeepsRows(s: Sink, now: nat, reason: Option<Reason>, ok: bool)
    ensures RowsKept(s, StopAndZero(s, now, reason, ok).sink)
  {}

  lemma TickKeepsRows(cfg: Config, s: Sink, now: nat, ok: bool)
    ensures RowsKept(s, Tick(cfg, s, now, ok).sink)
  {
    StopKeepsRows(s, now, Some(CandidateLeaseExpired), ok);
    WatchdogKeepsRows(cfg, s, s.lease.Some?, now, ok);
    WatchdogKeepsRows(cfg, s.(lease := None), s.lease.Some?, now, ok);
  }

  lemma WatchdogKeepsRows(cfg: Config, s: Sink, hadLease: bool, now: nat, ok: bool)
    ensures RowsKept(s, TickWatchdog(cfg, s, hadLease, now, ok).sink)
  {
    StopKeepsRows(s, now, Some(StateWatchdog), ok);
  }

  lemma CandidateKeepsRows(s: Sink, c: MotionCandidate, d: RoutedCommand, now: nat, ok: bool)
    requires d.mode.Some?
    ensures RowsKept(s, WriteCandidate(s, c, d, now, ok).sink)
  {}

  lemma SubmitKeepsRows(cfg: Config, s: Sink, c: MotionCandidate, now: nat, ok: bool)
    ensures RowsKept(s, SubmitCandidate(cfg, s, c, now, ok).sink)
  {
    StopKeepsRows(s, now, Some(SafetyRejected), ok);
    var d := Routed(cfg, s, c, now);
    if d.mode.Some? { CandidateKeepsRows(s, c, d, now, ok); }
  }

  lemma OthersKeepRows(cfg: Config, s: Sink, call: Call, ok: bool)
    requires !call.CallInitialize? && !call.CallObserve? && !call.CallInvalidate?
    ensures RowsKept(s, Perform(cfg, s, call, ok).sink)
  {
    match call
    case CallHandoff(b, now) =>
    case CallStop(now) => StopKeepsRows(s, now, None, ok);
    case CallSourceStop(b, g, now) => StopKeepsRows(s, now, None, ok);
    case CallSubmit(c, now) => SubmitKeepsRows(cfg, s, c, now, ok);
    case CallTick(now) => TickKeepsRows(cfg, s, now, ok);
    case CallDisarm(now) =>
  }

  lemma AckKeepsRows(cfg: Config, s: Sink, f: Telemetry, ok: bool)
    ensures RowsKept(s, AcknowledgePhase(cfg, s, f, ok).sink)
  {}

  lemma FirstKeepsRows(s: Sink, f: Telemetry)
    ensures RowsKept(s, FirstNonzeroPhase(s, f).sink)
  {}

  lemma SafetyKeepsRows(cfg: Config, s: Sink, f: Telemetry, ok: bool)
    ensures RowsKept(s, SafetyPhase(cfg, s, f, ok).sink)
  {
    StopKeepsRows(s, f.receivedNs, Some(UnsafeTelemetry), ok);
  }

  /** A row is recorded, and becomes the current one unless it regresses. */
  lemma RowIsRecorded(cfg: Config, s: Sink, f: Telemetry, ok: bool)
    ensures var t := ObserveLocked(cfg, s, f, ok).sink;
      && t.seen == s.seen + [Seen(f, |s.log|)]
      && t.telemetry == if Regresses(s, f) then s.telemetry else Some(f)
  {
    if !Regresses(s, f) && !s.disarmed && !s.faulted {
      var h := Current(s, f);
      var ack := AcknowledgePhase(cfg, h, f, ok).sink;
      AckKeepsRows(cfg, h, f, ok);
      FirstKeepsRows(ack, f);
      SafetyKeepsRows(cfg, FirstNonzeroPhase(ack, f).sink, f, ok);
    }
  }

  lemma OthersKeepHanded(cfg: Config, s: Sink, handed: seq<Seen>, call: Call, ok: bool)
    requires Inv(s) && HandedOk(s, handed) && Causal(s, call)
    requires !call.CallInitialize? && !call.CallObserve? && !call.CallInvalidate?
    ensures HandedOk(Perform(cfg, s, call, ok).sink, handed)
  {
    var t := Perform(cfg, s, call, ok).sink;
    NewCommandIsNext(cfg, s, call, ok);
    OthersKeepRows(cfg, s, call, ok);
    assert handed + [] == handed;
    RowsBackedGrow(s, t, handed, []);
    if s.telemetry.Some? { CurrentGrows(s, t, handed, []); }
  }

  lemma ObserveKeepsHanded(cfg: Config, s: Sink, handed: seq<Seen>, f: Telemetry, ok: bool)
    requires Inv(s) && s.synchronized && HandedOk(s, handed) && Causal(s, CallObserve(f))
    ensures HandedOk(Perform(cfg, s, CallObserve(f), ok).sink, handed + [Seen(f, |s.log|)])
  {
    var t := Perform(cfg, s, CallObserve(f), ok).sink;
    NewCommandIsNext(cfg, s, CallObserve(f), ok);
    RowIsRecorded(cfg, s, f, ok);
    RowsBackedGrow(s, t, handed, [Seen(f, |s.log|)]);
    if Regresses(s, f) {
      CurrentGrows(s, t, handed, [Seen(f, |s.log|)]);
    } else {
      HandedBacksItself(s, t, handed, f);
    }
  }

  lemma InvalidateKeepsHanded(cfg: Config, s: Sink, handed: seq<Seen>, now: nat, alive: bool, ok: bool)
    requires Inv(s) && s.synchronized && HandedOk(s, handed) && Causal(s, CallInvalidate(now, alive))
    ensures HandedOk(Perform(cfg, s, CallInvalidate(now, alive), ok).sink, handed)
  {
    var t := Perform(cfg, s, CallInvalidate(now, alive), ok).sink;
    var row := InvalidRow(s.telemetry.value, now, alive);
    NewCommandIsNext(cfg, s, CallInvalidate(now, alive), ok);
    RowIsRecorded(cfg, s, row, ok);
    MadeUpIsBacked(s, t, handed, row);
    assert handed + [] == handed;
    RowsBackedGrow(s, t, handed, []);
    CurrentGrows(s, t, handed, []);
  }

  lemma CallKeepsHanded(cfg: Config, s: Sink, handed: seq<Seen>, call: Call, ok: bool)
    requires Inv(s) && HandedOk(s, handed) && Causal(s, call)
    ensures HandedOk(Perform(cfg, s, call, ok).sink, handed + HandedBy(s, call))
  {
    assert handed + [] == handed;
    if call.CallInitialize? {
    } else if call.CallObserve? {
      if s.synchronized { ObserveKeepsHanded(cfg, s, handed, call.frame, ok); }
    } else if call.CallInvalidate? {
      if s.synchronized { InvalidateKeepsHanded(cfg, s, handed, call.now, call.alive, ok); }
    } else {
      OthersKeepHanded(cfg, s, handed, call, ok);
    }
  }

  // ---------- over every causal run ----------

  lemma {:induction false} CausalRunIsBacked(cfg: Config, calls: seq<TimedCall>)
    requires CausalRun(cfg, calls)
    ensures HandedOk(Run(cfg, calls), Handed(cfg, calls))
  {
    if calls != [] {
      var n := |calls| - 1;
      var before := calls[..n];
      assert forall k | 0 <= k < n :: before[k] == calls[k] && before[..k] == calls[..k];
      CausalRunIsBacked(cfg, before);
      EveryRunKeepsInvariant(cfg, before);
      assert Causal(Run(cfg, calls[..n]), calls[n].call);
      CallKeepsHanded(cfg, Run(cfg, before), Handed(cfg, before), calls[n].call, calls[n].ok);
    }
  }

  lemma AckedByHanded(log: seq<Write>, seen: seq<Seen>, handed: seq<Seen>, i: nat, n: nat, mode: ControlMode, safe: bool)
    requires RowsBacked(log, seen, handed) && ZeroAcked(log, seen, i, n, mode, safe)
    ensures ZeroAcked(log, handed, i, n, mode, safe)
  {
    var j :| 0 <= j < |seen| && i < seen[j].at <= n && EchoesZero(seen[j].frame, log[i]) &&
             (safe ==> SafeFrame(seen[j].frame, mode));
    if seen[j] in handed {
      var k :| 0 <= k < |handed| && handed[k] == seen[j];
    } else {
      var y :| y in handed && i < y.at <= seen[j].at && EchoesZero(y.frame, log[i]);
      var k :| 0 <= k < |handed| && handed[k] == y;
    }
  }

  lemma ReleasedByHanded(log: seq<Write>, seen: seq<Seen>, handed: seq<Seen>, a: nat, n: nat)
    requires RowsBacked(log, seen, handed) && Released(log, seen, a, n)
    ensures Released(log, handed, a, n)
  {
    var i :| a < i < n && ZeroAcked(log, seen, i, n, log[a].mode, false);
    AckedByHanded(log, seen, handed, i, n, log[a].mode, false);
  }

  lemma ClaimedByHanded(log: seq<Write>, seen: seq<Seen>, handed: seq<Seen>, a: nat, mode: ControlMode, generation: nat, n: nat)
    requires RowsBacked(log, seen, handed) && Claimed(log, seen, a, mode, generation, n)
    ensures Claimed(log, handed, a, mode, generation, n)
  {
    var k :| 0 <= k < n && Released(log, seen, a, k) && ZeroAcked(log, seen, k, n, mode, true) &&
             log[k].generation == generation;
    ReleasedByHanded(log, seen, handed, a, k);
    AckedByHanded(log, seen, handed, k, n, mode, true);
  }

  lemma TwoZerosByHanded(log: seq<Write>, seen: seq<Seen>, handed: seq<Seen>)
    requires RowsBacked(log, seen, handed) && TwoZeroHandoff(log, seen)
    ensures TwoZeroHandoff(log, handed)
  {
    forall a, b | 0 <= a < b < |log| && Nonzero(log[a]) && Nonzero(log[b]) && log[a].generation != log[b].generation
      ensures Claimed(log, handed, a, log[b].mode, log[b].generation, b)
    {
      ClaimedByHanded(log, seen, handed, a, log[b].mode, log[b].generation, b);
    }
  }

  lemma ClaimsByHanded(log: seq<Write>, seen: seq<Seen>, handed: seq<Seen>)
    requires RowsBacked(log, seen, handed) && MotionsFollowClaims(log, seen)
    ensures MotionsFollowClaims(log, handed)
  {
    forall b | 0 <= b < |log| && Nonzero(log[b]) ensures ZeroOfOwn(log, handed, log[b].generation, log[b].mode, b) {
      var k :| 0 <= k < |log| && log[k].generation == log[b].generation && ZeroAcked(log, seen, k, b, log[b].mode, true);
      AckedByHanded(log, seen, handed, k, b, log[b].mode, true);
    }
  }

  /** Over every causal run the two zeros between motions of different generations,
      and the claim before any motion, were echoed by rows handed in. */
  lemma {:induction false} HandoffsRestOnHandedRows(cfg: Config, calls: seq<TimedCall>)
    requires CausalRun(cfg, calls)
    ensures TwoZeroHandoff(Run(cfg, calls).log, Handed(cfg, calls))
    ensures MotionsFollowClaims(Run(cfg, calls).log, Handed(cfg, calls))
  {
    var s, handed := Run(cfg, calls), Handed(cfg, calls);
    CausalRunIsBacked(cfg, calls);
    EveryRunKeepsInvariant(cfg, calls);
    EveryMotionFollowsItsClaim(cfg, calls);
    TwoZerosByHanded(s.log, s.seen, handed);
    ClaimsByHanded(s.log, s.seen, handed);
  }
}
