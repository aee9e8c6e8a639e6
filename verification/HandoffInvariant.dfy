/** What every call of the command sink keeps, for every interleaving of calls. */
module HandoffInvariant {
  import opened Wrappers
  import opened ResidentMotion
  import opened ResidentCommands
  import opened ResidentSink

  // ---------- statements about the histories alone ----------

  predicate Nonzero(w: Write) { w.action != ZERO_ACTION }

  /** The row is the STM32 echo of exactly this zero command. */
  predicate EchoesZero(f: Telemetry, w: Write) {
    f.rxSeq == w.commandSeq && CommandLive(f) && f.mode == Some(w.mode) && f.action == ZERO_ACTION
  }

  /** The i-th command is a zero in the given mode whose echo arrived after it
      was written and before the n-th command; safe asks that row to be safe. */
  ghost predicate ZeroAcked(log: seq<Write>, seen: seq<Seen>, i: nat, n: nat, mode: ControlMode, safe: bool) {
    && i < |log| && log[i].action == ZERO_ACTION && log[i].mode == mode
    && exists j ::
         && 0 <= j < |seen| && i < seen[j].at <= n && EchoesZero(seen[j].frame, log[i])
         && (safe ==> SafeFrame(seen[j].frame, mode))
  }

  /** The policy that wrote command a has acknowledged a zero in its own mode. */
  ghost predicate Released(log: seq<Write>, seen: seq<Seen>, a: nat, n: nat) {
    a < |log| && exists i :: a < i < n && ZeroAcked(log, seen, i, n, log[a].mode, false)
  }

  /** After that, a zero of this generation in the new mode was acknowledged by
      a safe row. */
  ghost predicate Claimed(log: seq<Write>, seen: seq<Seen>, a: nat, mode: ControlMode, generation: nat, n: nat) {
    exists k :: 0 <= k < n && Released(log, seen, a, k) && ZeroAcked(log, seen, k, n, mode, true) &&
                log[k].generation == generation
  }

  ghost predicate TwoZeroHandoff(log: seq<Write>, seen: seq<Seen>) {
    forall a, b | 0 <= a < b < |log| && Nonzero(log[a]) && Nonzero(log[b]) && log[a].generation != log[b].generation ::
      Claimed(log, seen, a, log[b].mode, log[b].generation, b)
  }

  ghost predicate OnePolicyPerGeneration(log: seq<Write>) {
    forall a, b | 0 <= a < |log| && 0 <= b < |log| && Nonzero(log[a]) && Nonzero(log[b]) &&
                  log[a].generation == log[b].generation ::
      log[a].source == log[b].source && log[a].mode == log[b].mode
  }

  ghost predicate ModeChangesBetweenZeros(log: seq<Write>) {
    forall i | 0 < i < |log| && log[i].mode != log[i - 1].mode :: !Nonzero(log[i]) && !Nonzero(log[i - 1])
  }

  ghost predicate GaplessFrom(start: Sequence, log: seq<Write>) {
    && (log != [] ==> log[0].commandSeq == start)
    && (forall i | 0 < i < |log| :: log[i].commandSeq == Successor(log[i - 1].commandSeq))
  }

  // ---------- the invariant ----------

  function Last(s: Sink): Write
    requires s.log != []
  {
    s.log[|s.log| - 1]
  }

  /** The sequence number the next command must carry. */
  function Expected(s: Sink): Sequence {
    if s.log == [] then s.start else Successor(Last(s).commandSeq)
  }

  predicate LastIsNonzero(s: Sink) { s.log != [] && Nonzero(Last(s)) }

  ghost predicate HistoryOk(s: Sink) {
    && (forall i | 0 <= i < |s.log| :: s.log[i].generation <= s.authority.generation)
    && (forall i | 0 <= i < |s.log| :: Nonzero(s.log[i]) ==> s.log[i].accepted && s.log[i].source.Some?)
    && (forall j | 0 <= j < |s.seen| :: s.seen[j].at <= |s.log|)
    && GaplessFrom(s.start, s.log)
    && OnePolicyPerGeneration(s.log)
    && ModeChangesBetweenZeros(s.log)
    && TwoZeroHandoff(s.log, s.seen)
  }

  /** A pending acknowledgement exists exactly in the two zero-pending phases,
      with their generation, mode and purpose, for the last command written. */
  predicate SinkAgreesWithAuthority(s: Sink) {
    match PendingZeroOf(s.authority)
    case BrokenPhase => false
    case NothingPending => s.pendingAck.None?
    case ZeroPending(z) =>
      && s.log != [] && Last(s).action == ZERO_ACTION && Last(s).mode == z.mode && Last(s).generation == z.generation
      && s.pendingAck == Some(PendingAck(z.generation, z.mode, z.purpose, Last(s).commandSeq))
      && s.authority.requestedNs.Some? && s.authority.requestedNs.value <= Last(s).at
  }

  /** The dead-man bookkeeping. */
  predicate LeaseFollowsMotion(s: Sink) {
    && (s.lease.Some? <==> LastIsNonzero(s))
    && (s.lease.Some? ==>
          && s.authority.phase.Active? && !s.latched
          && s.authority.active == Some(s.lease.value.binding)
          && s.authority.generation == s.lease.value.generation == Last(s).generation)
  }

  predicate WrittenBy(w: Write, binding: Option<PolicyBinding>) {
    binding.Some? && w.source == Some(binding.value.source) && w.mode == binding.value.mode
  }

  ghost predicate CommandsBelongToOwner(s: Sink) {
    && (s.authority.active.Some? ==> s.log != [] && Last(s).mode == s.authority.active.value.mode)
    && (forall i | 0 <= i < |s.log| :: Nonzero(s.log[i]) && s.log[i].generation == s.authority.generation ==>
          s.authority.phase.Active? && WrittenBy(s.log[i], s.authority.active))
  }

  /** How far the handoff away from the policy that wrote command a has come. */
  ghost predicate ProgressFrom(s: Sink, a: nat)
    requires a < |s.log|
  {
    && (s.authority.active.None? || s.authority.active.value.mode != s.log[a].mode ==>
          Released(s.log, s.seen, a, |s.log|))
    && (s.authority.phase.TargetZeroPending? ==> Released(s.log, s.seen, a, |s.log| - 1))
    && (s.authority.phase.Active? && s.authority.active.Some? && s.log[a].generation != s.authority.generation ==>
          Claimed(s.log, s.seen, a, s.authority.active.value.mode, s.authority.generation, |s.log|))
  }

  ghost predicate HandoffProgress(s: Sink) {
    forall a | 0 <= a < |s.log| && Nonzero(s.log[a]) :: ProgressFrom(s, a)
  }

  predicate SampleOk(m: HandoffSample) {
    m.terminalAckNs <= m.targetAckNs <= m.firstWriteNs && m.terminalAckNs <= m.firstAckNs
  }

  /** The evidence collected for the handoff in progress and those finished. */
  ghost predicate EvidenceOk(s: Sink) {
    && (forall i | 0 <= i < |s.samples| ::
          SampleOk(s.samples[i]) && s.samples[i].generation <= s.authority.generation)
    && (forall i, j | 0 <= i < j < |s.samples| :: s.samples[i].generation < s.samples[j].generation)
    && (s.measurement.Some? || s.authority.phase.TerminalZeroPending? ==>
          forall i | 0 <= i < |s.samples| :: s.samples[i].generation < s.authority.generation)
    && (s.measurement.Some? ==>
          var m := s.measurement.value;
          && m.generation == s.authority.generation && s.telemetry.Some?
          && m.terminalAckNs <= s.telemetry.value.receivedNs
          && (s.authority.phase.TargetZeroPending? || s.authority.phase.Active?)
          && (m.targetSeq.Some? <==> m.targetAckNs.Some?)
          && (m.targetAckNs.Some? <==> s.authority.phase.Active?)
          && (m.targetAckNs.Some? ==> m.terminalAckNs <= m.targetAckNs.value <= s.telemetry.value.receivedNs))
    && (s.firstNonzero.Some? ==>
          var p := s.firstNonzero.value;
          && s.measurement.Some? && s.authority.phase.Active? && p.generation == s.authority.generation
          && LastIsNonzero(s) && Last(s).commandSeq == p.commandSeq && Last(s).mode == p.mode
          && Last(s).action == p.action && Last(s).at == p.writeNs && Last(s).generation == p.generation
          && s.measurement.value.targetAckNs.value <= p.writeNs)
  }

  ghost predicate Live(s: Sink) {
    && s.telemetry.Some?
    && s.nextSequence == Expected(s)
    && SinkAgreesWithAuthority(s)
    && LeaseFollowsMotion(s)
    && CommandsBelongToOwner(s)
    && HandoffProgress(s)
    && EvidenceOk(s)
  }

  /** Disarmed by terminal_disarm rather than by a serial fault. */
  predicate AtRest(s: Sink) {
    s.lease.None? && s.pendingAck.None? && !LastIsNonzero(s)
  }

  ghost predicate Inv(s: Sink) {
    && WellShaped(s.authority)
    && HistoryOk(s)
    && (!s.synchronized ==> s == INITIAL_SINK)
    && (s.synchronized ==> s.telemetry.Some?)
    && (s.faulted ==> s.disarmed)
    && (Operational(s) ==> Live(s))
    && (s.disarmed && !s.faulted ==> AtRest(s))
  }

  // ---------- histories only grow ----------

  lemma ZeroAckedGrows(log: seq<Write>, seen: seq<Seen>, more: seq<Write>, rows: seq<Seen>,
                       i: nat, n: nat, n': nat, mode: ControlMode, safe: bool)
    requires ZeroAcked(log, seen, i, n, mode, safe) && n <= n'
    ensures ZeroAcked(log + more, seen + rows, i, n', mode, safe)
  {
    var j :| 0 <= j < |seen| && i < seen[j].at <= n && EchoesZero(seen[j].frame, log[i]) &&
             (safe ==> SafeFrame(seen[j].frame, mode));
    assert (seen + rows)[j] == seen[j];
  }

  lemma ReleasedGrows(log: seq<Write>, seen: seq<Seen>, more: seq<Write>, rows: seq<Seen>, a: nat, n: nat, n': nat)
    requires Released(log, seen, a, n) && n <= n'
    ensures Released(log + more, seen + rows, a, n')
  {
    var i :| a < i < n && ZeroAcked(log, seen, i, n, log[a].mode, false);
    ZeroAckedGrows(log, seen, more, rows, i, n, n', log[a].mode, false);
    assert (log + more)[a] == log[a];
  }

  lemma ClaimedGrows(log: seq<Write>, seen: seq<Seen>, more: seq<Write>, rows: seq<Seen>,
                     a: nat, mode: ControlMode, generation: nat, n: nat, n': nat)
    requires Claimed(log, seen, a, mode, generation, n) && n <= n'
    ensures Claimed(log + more, seen + rows, a, mode, generation, n')
  {
    var k :| 0 <= k < n && Released(log, seen, a, k) && ZeroAcked(log, seen, k, n, mode, true) &&
             log[k].generation == generation;
    ReleasedGrows(log, seen, more, rows, a, k, k);
    ZeroAckedGrows(log, seen, more, rows, k, n, n', mode, true);
  }

  /** Appending rows keeps the history statements and the handoff progress. */
  lemma RowsKeepHistory(s: Sink, t: Sink, rows: seq<Seen>)
    requires HistoryOk(s)
    requires t.log == s.log && t.seen == s.seen + rows && t.start == s.start
    requires t.authority.generation >= s.authority.generation
    requires forall j | 0 <= j < |rows| :: rows[j].at <= |s.log|
    ensures HistoryOk(t)
  {
    assert s.log + [] == s.log;
    forall a, b | 0 <= a < b < |t.log| && Nonzero(t.log[a]) && Nonzero(t.log[b]) &&
                  t.log[a].generation != t.log[b].generation
      ensures Claimed(t.log, t.seen, a, t.log[b].mode, t.log[b].generation, b)
    {
      ClaimedGrows(s.log, s.seen, [], rows, a, s.log[b].mode, s.log[b].generation, b, b);
    }
  }

  /** One more command keeps the history statements when it continues the
      sequence, changes mode only between zeros, and, if it moves the machine,
      comes from the policy every earlier motion was handed over to. */
  lemma CommandKeepsHistory(s: Sink, t: Sink, w: Write)
    requires HistoryOk(s)
    requires t.log == s.log + [w] && t.seen == s.seen && t.start == s.start
    requires s.authority.generation <= t.authority.generation && w.generation <= t.authority.generation
    requires w.commandSeq == Expected(s)
    requires s.log != [] && Last(s).mode != w.mode ==> !Nonzero(w) && !Nonzero(Last(s))
    requires Nonzero(w) ==> w.accepted && w.source.Some?
    requires Nonzero(w) ==> forall a | 0 <= a < |s.log| && Nonzero(s.log[a]) ::
               if s.log[a].generation == w.generation then s.log[a].source == w.source && s.log[a].mode == w.mode
               else Claimed(s.log, s.seen, a, w.mode, w.generation, |s.log|)
    ensures HistoryOk(t)
  {
    TwoZeroExtends(s.log, s.seen, w);
    OnePolicyExtends(s.log, w);
    SequenceAndModesExtend(s.start, s.log, w);
    assert forall i | 0 <= i < |s.log| :: t.log[i] == s.log[i];
  }

  lemma OnePolicyExtends(log: seq<Write>, w: Write)
    requires OnePolicyPerGeneration(log)
    requires Nonzero(w) ==> forall a | 0 <= a < |log| && Nonzero(log[a]) && log[a].generation == w.generation ::
               log[a].source == w.source && log[a].mode == w.mode
    ensures OnePolicyPerGeneration(log + [w])
  {}

  lemma SequenceAndModesExtend(start: Sequence, log: seq<Write>, w: Write)
    requires GaplessFrom(start, log) && ModeChangesBetweenZeros(log)
    requires w.commandSeq == if log == [] then start else Successor(log[|log| - 1].commandSeq)
    requires log != [] && log[|log| - 1].mode != w.mode ==> !Nonzero(w) && !Nonzero(log[|log| - 1])
    ensures GaplessFrom(start, log + [w]) && ModeChangesBetweenZeros(log + [w])
  {}

  lemma TwoZeroExtends(log: seq<Write>, seen: seq<Seen>, w: Write)
    requires TwoZeroHandoff(log, seen)
    requires Nonzero(w) ==> forall a | 0 <= a < |log| && Nonzero(log[a]) && log[a].generation != w.generation ::
               Claimed(log, seen, a, w.mode, w.generation, |log|)
    ensures TwoZeroHandoff(log + [w], seen)
  {
    var more := log + [w];
    assert seen + [] == seen;
    forall a, b | 0 <= a < b < |more| && Nonzero(more[a]) && Nonzero(more[b]) && more[a].generation != more[b].generation
      ensures Claimed(more, seen, a, more[b].mode, more[b].generation, b)
    {
      ClaimedGrows(log, seen, [w], [], a, more[b].mode, more[b].generation, b, b);
    }
  }
}
