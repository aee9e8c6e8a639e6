/** Single steps of the motion owner at time 0, along a whole change from RL to ACT
    and back: each request, each echo, each ACT step. */
module OwnerSteps {
  import opened Wrappers
  import opened ResidentMotion
  import opened ResidentCommands
  import opened ResidentSink
  import opened ResidentIngress
  import opened ResidentCore
  import opened HandoffInvariant
  import opened SinkPreservation
  import opened HandoffProgress
  import opened HandedRows
  import opened SampleEvidence
  import opened CoreInvariant
  import opened CorePreservation
  import opened CoreTheorems

  // ---------- the sink ----------

  /** A safe row at time 0 that echoes the last command as a zero. */
  function Echo(s: Sink): Telemetry
    requires s.log != []
  {
    Telemetry(0, Last(s).commandSeq, true, false, Some(Last(s).mode), ZERO_ACTION, true, false, true, true, 0)
  }

  ghost predicate Quiet(cfg: CoreConfig, c: Core) {
    && CoreInv(cfg, c) && Operational(c.sink) && c.sink.telemetry.Some? && c.sink.telemetry.value.receivedNs == 0
    && (c.sink.log != [] ==> Last(c.sink).at == 0) && c.deadlineNs.Some? && c.deadlineNs.value > 0
  }

  predicate RlClaimed(c: Core) {
    && c.sink.authority.target == Some(RL_BINDING) && c.rl.generation == Some(c.sink.authority.generation)
  }

  predicate ActClaimed(c: Core, n: nat) {
    && c.sink.authority.target == Some(ACT_BINDING) && Fresh(c, n)
  }

  /** The segment of the current generation has counted nothing yet. */
  predicate Fresh(c: Core, n: nat) {
    && c.act.generation == Some(c.sink.authority.generation) == c.segment.generation
    && c.segment.maxSteps == Some(n) && Counting(c.segment, 0)
  }

  predicate Counting(g: Segment, k: nat) { g.completedSteps == k && g.reason.None? && !g.handoffDue && !g.complete }

  /** ACT is active on a safe row, k steps into its segment. */
  predicate ActRuns(c: Core, n: nat, k: nat) {
    && ActIsActive(c.sink) && c.act.generation == Some(c.sink.authority.generation) == c.segment.generation
    && c.segment.maxSteps == Some(n) && Counting(c.segment, k)
    && c.sink.pendingAck.None? && c.sink.firstNonzero.None?
    && c.sink.telemetry.Some? && SafeFrame(c.sink.telemetry.value, ManualAction)
  }

  predicate ActIsDue(c: Core, n: nat) {
    && ActIsActive(c.sink) && c.segment.generation == Some(c.sink.authority.generation)
    && c.segment.completedSteps == n && c.segment.reason == Some(StepBudget) && c.segment.handoffDue && !c.segment.complete
    && c.sink.log != [] && c.segment.finalSeq == Some(Last(c.sink).commandSeq)
    && Last(c.sink).mode == ManualAction && Last(c.sink).action == ZERO_ACTION && c.sink.pendingAck.None?
  }

  predicate ActIsComplete(c: Core, n: nat) {
    c.segment.complete && c.segment.reason == Some(StepBudget) && c.segment.completedSteps == n && !c.segment.handoffDue
  }

  /** What a good echo of a terminal zero does to the sink. */
  lemma TerminalEcho(cfg: Config, s: Sink)
    requires Inv(s) && Operational(s) && s.authority.phase.TerminalZeroPending? && s.authority.target.Some?
    requires s.telemetry.Some? && s.telemetry.value.receivedNs == 0 && s.log != [] && Last(s).at == 0
    ensures var step := ObserveTelemetry(cfg, s, Echo(s), true); var t := step.sink;
      && step.outcome == Done && Inv(t) && Operational(t) && t.telemetry == Some(Echo(s))
      && t.authority == s.authority.(phase := TargetZeroPending, active := None)
      && t.log != [] && Last(t).at == 0
  {
    TerminalEchoAdvances(cfg, s, Echo(s));
    RowIsRecorded(cfg, s, Echo(s), true);
    EchoWritesNow(cfg, s, Echo(s));
    ObserveKeeps(cfg, s, Echo(s), true);
  }

  predicate EndsAt(s: Sink, at: nat) { s.log != [] && Last(s).at == at }

  predicate WritesAt(s: Sink, t: Sink, at: nat) { t.log == s.log || (t.log != [] && Last(t).at == at) }

  lemma AckWritesNow(cfg: Config, s: Sink, f: Telemetry)
    ensures WritesAt(s, AcknowledgePhase(cfg, s, f, true).sink, f.receivedNs)
  {}

  lemma FirstWritesNothing(s: Sink, f: Telemetry)
    ensures FirstNonzeroPhase(s, f).sink.log == s.log
  {}

  lemma StopWritesNow(s: Sink, now: nat, reason: Option<Reason>)
    ensures WritesAt(s, StopAndZero(s, now, reason, true).sink, now)
  {}

  lemma SafetyWritesNow(cfg: Config, s: Sink, f: Telemetry)
    ensures WritesAt(s, SafetyPhase(cfg, s, f, true).sink, f.receivedNs)
  {
    StopWritesNow(s, f.receivedNs, Some(UnsafeTelemetry));
  }

  lemma RestWritesNow(cfg: Config, s: Sink, f: Telemetry)
    ensures WritesAt(s, FirstNonzeroPhase(s, f).sink, f.receivedNs)
    ensures WritesAt(s, SafetyPhase(cfg, FirstNonzeroPhase(s, f).sink, f, true).sink, f.receivedNs)
  {
    FirstWritesNothing(s, f);
    SafetyWritesNow(cfg, FirstNonzeroPhase(s, f).sink, f);
  }

  lemma RowWritesNow(cfg: Config, h: Sink, f: Telemetry, t: Sink)
    requires EndsAt(h, f.receivedNs) && t == ProcessRow(cfg, h, f, true).sink
    ensures EndsAt(t, f.receivedNs)
  {
    PhasesWriteNow(cfg, h, f);
    RowEndsInPhase(cfg, h, f, true);
  }

  lemma PhasesWriteNow(cfg: Config, h: Sink, f: Telemetry)
    requires EndsAt(h, f.receivedNs)
    ensures var ack := AcknowledgePhase(cfg, h, f, true).sink; var first := FirstNonzeroPhase(ack, f).sink;
      EndsAt(ack, f.receivedNs) && EndsAt(first, f.receivedNs) && EndsAt(SafetyPhase(cfg, first, f, true).sink, f.receivedNs)
  {
    AckWritesNow(cfg, h, f);
    RestWritesNow(cfg, AcknowledgePhase(cfg, h, f, true).sink, f);
  }

  lemma EchoWritesNow(cfg: Config, s: Sink, f: Telemetry)
    requires s.log != [] && Last(s).at == f.receivedNs
    ensures var t := ObserveTelemetry(cfg, s, f, true).sink; t.log != [] && Last(t).at == f.receivedNs
  {
    var h := Recorded(s, f).(telemetry := Some(f));
    RowWritesNow(cfg, h, f, ProcessRow(cfg, h, f, true).sink);
  }

  /** What a good echo of a target zero does to it. */
  lemma TargetEcho(cfg: Config, s: Sink)
    requires Inv(s) && Operational(s) && s.authority.phase.TargetZeroPending?
    requires s.telemetry.Some? && s.telemetry.value.receivedNs == 0 && s.log != [] && Last(s).at == 0
    ensures var step := ObserveTelemetry(cfg, s, Echo(s), true); var t := step.sink;
      && step.outcome == Done && Inv(t) && Operational(t) && t.telemetry == Some(Echo(s))
      && SafeFrame(Echo(s), s.authority.target.value.mode)
      && t.authority.phase.Active? && t.authority.active == s.authority.target
      && t.authority.generation == s.authority.generation
      && t.pendingAck.None? && t.firstNonzero.None? && t.log != [] && Last(t).at == 0
  {
    TargetZeroIsLast(s);
    TargetEchoAdvances(cfg, s, Echo(s));
    RowIsRecorded(cfg, s, Echo(s), true);
    EchoWritesNow(cfg, s, Echo(s));
    ObserveKeeps(cfg, s, Echo(s), true);
    TargetEchoWritesNothing(cfg, s, Echo(s));
  }

  lemma TargetEchoWritesNothing(cfg: Config, s: Sink, f: Telemetry)
    requires Inv(s) && Operational(s) && Echoed(s, f)
    requires s.authority.phase.TargetZeroPending? && SafeFrame(f, s.authority.target.value.mode)
    ensures ObserveTelemetry(cfg, s, f, true).sink.firstNonzero == s.firstNonzero && s.firstNonzero.None?
  {
    var h := Recorded(s, f).(telemetry := Some(f));
    RowKeeps(s, f);
    TargetEchoActivates(cfg, h, f);
  }

  // ---------- the owner's part of each step ----------

  lemma EchoIsPlain(cfg: CoreConfig, c: Core, f: Telemetry)
    requires CoreInv(cfg, c) && Operational(c.sink) && !SegmentEchoed(c.segment, f)
    requires !ObserveTelemetry(cfg.sink, c.sink, f, true).outcome.Failed?
    ensures CoreObserve(cfg, c, f, true).core == c.(sink := ObserveTelemetry(cfg.sink, c.sink, f, true).sink)
  {}

  lemma ObserveQuiet(cfg: CoreConfig, c: Core, f: Telemetry)
    requires Quiet(cfg, c)
    ensures CoreInv(cfg, CoreObserve(cfg, c, f, true).core)
  {
    ObserveKeepsCore(cfg, c, f, true);
  }

  /** The first echo of a handoff. */
  lemma ReleaseStep(cfg: CoreConfig, c: Core)
    requires Quiet(cfg, c) && c.sink.authority.phase.TerminalZeroPending? && c.sink.authority.target.Some?
    requires c.sink.log != [] && !c.segment.handoffDue
    ensures var d := CoreObserve(cfg, c, Echo(c.sink), true).core;
      && Quiet(cfg, d) && d == c.(sink := d.sink) && d.sink.log != []
      && d.sink.authority == c.sink.authority.(phase := TargetZeroPending, active := None)
  {
    TerminalEcho(cfg.sink, c.sink);
    EchoIsPlain(cfg, c, Echo(c.sink));
    ObserveQuiet(cfg, c, Echo(c.sink));
  }

  /** The second one. */
  lemma ClaimStep(cfg: CoreConfig, c: Core)
    requires Quiet(cfg, c) && c.sink.authority.phase.TargetZeroPending? && c.sink.log != [] && !c.segment.handoffDue
    ensures var d := CoreObserve(cfg, c, Echo(c.sink), true).core;
      && Quiet(cfg, d) && d == c.(sink := d.sink) && d.sink.log != []
      && d.sink.authority.phase.Active? && d.sink.authority.active == c.sink.authority.target
      && d.sink.authority.generation == c.sink.authority.generation
      && d.sink.pendingAck.None? && d.sink.firstNonzero.None?
      && SafeFrame(d.sink.telemetry.value, c.sink.authority.target.value.mode)
  {
    TargetEcho(cfg.sink, c.sink);
    EchoIsPlain(cfg, c, Echo(c.sink));
    ObserveQuiet(cfg, c, Echo(c.sink));
  }

  /** A request for the machine at time 0. */
  lemma RequestStep(cfg: CoreConfig, s: Sink, binding: PolicyBinding)
    requires Inv(s) && Operational(s)
    ensures var step := RequestHandoff(s, binding, 0, true);
      && step.outcome == Generation(s.authority.generation + 1) && Operational(step.sink)
      && step.sink.authority == HandoffRequested(s.authority, binding, 0)
      && step.sink.telemetry == s.telemetry && step.sink.log != [] && Last(step.sink).at == 0
  {
    ClaimSucceeds(s, binding, 0);
    assert Encodable(binding.mode, ZERO_ACTION);
    assert s.authority.active.Some? ==> Encodable(s.authority.active.value.mode, ZERO_ACTION);
  }

  /** RL or ACT is claimed by an adapter that does not hold the machine. */
  lemma RlRequested(cfg: CoreConfig, c: Core)
    requires Quiet(cfg, c) && !Holds(c.sink, c.rl, RL_BINDING)
    ensures var step := ActivateRl(c, 0, true); var d := step.core;
      && !step.outcome.Failed? && Quiet(cfg, d) && RlClaimed(d) && d.sink.log != []
      && d.sink.authority == HandoffRequested(c.sink.authority, RL_BINDING, 0)
      && d.segment == c.segment.(handoffDue := false)
  {
    RequestStep(cfg, c.sink, RL_BINDING);
    ActivateRlKeepsCore(cfg, c, 0, true);
  }

  lemma ActRequested(cfg: CoreConfig, c: Core, n: nat)
    requires Quiet(cfg, c) && 1 <= n <= MAX_ACT_SEGMENT_STEPS && RlIsActive(c.sink)
    ensures var step := ActivateAct(c, Some(n as int), 0, true); var d := step.core;
      && step.outcome == Generation(d.sink.authority.generation) && Quiet(cfg, d) && ActClaimed(d, n) && d.sink.log != []
      && d.sink.authority.phase.TerminalZeroPending?
  {
    RequestStep(cfg, c.sink, ACT_BINDING);
    ActivateActKeepsCore(cfg, c, Some(n as int), 0, true);
  }

  /** A step of ACT that leaves the machine at rest. */
  function Resting(c: Core): CandidatePacket {
    CandidatePacket(MotionCandidate("act_dig", c.sink.authority.generation, ManualAction, ZERO_ACTION, 0, 0, None))
  }

  lemma RestingIsSubmitted(cfg: CoreConfig, c: Core, n: nat, k: nat)
    requires Quiet(cfg, c) && ActRuns(c, n, k)
    ensures var sent := SendCandidate(cfg.sink, c.sink, c.act, ACT_BINDING, Resting(c), 0, true);
      && sent.outcome.Result? && sent.outcome.result.accepted
      && sent.outcome.result.commandSeq == Some(c.sink.nextSequence)
      && sent.adapter == c.act && Operational(sent.sink) && sent.sink.authority == c.sink.authority
      && sent.sink.telemetry == c.sink.telemetry && sent.sink.pendingAck.None? && sent.sink.firstNonzero.None?
      && sent.sink.log != [] && Last(sent.sink).at == 0 && Last(sent.sink).commandSeq == c.sink.nextSequence
      && Last(sent.sink).mode == ManualAction && Last(sent.sink).action == ZERO_ACTION
  {
    assert Encodable(ManualAction, ZERO_ACTION);
  }

  lemma ActStep(cfg: CoreConfig, c: Core, n: nat, k: nat)
    requires Quiet(cfg, c) && ActRuns(c, n, k) && k < n
    ensures var d := SubmitAct(cfg, c, Resting(c), 0, true).core;
      Quiet(cfg, d) && if k + 1 < n then ActRuns(d, n, k + 1) else ActIsDue(d, n)
  {
    RestingIsSubmitted(cfg, c, n, k);
    SubmitActKeepsCore(cfg, c, Resting(c), 0, true);
  }

  /** The echo of the last step completes the segment and claims RL. */
  lemma CompletionStep(cfg: CoreConfig, c: Core, n: nat)
    requires Quiet(cfg, c) && ActIsDue(c, n)
    ensures var d := CoreObserve(cfg, c, Echo(c.sink), true).core;
      && Quiet(cfg, d) && ActIsComplete(d, n) && RlClaimed(d) && d.sink.log != []
      && d.sink.authority.phase.TerminalZeroPending? && d.segment.generation == c.segment.generation
  {
    var step := ObserveTelemetry(cfg.sink, c.sink, Echo(c.sink), true);
    DueEchoIsQuiet(cfg.sink, c.sink);
    ObserveQuiet(cfg, c, Echo(c.sink));
    ObserveIsQuiet(cfg.sink, c.sink, Echo(c.sink), true);
    QuietMoveKeeps(cfg, c, step.sink);
    LastStepEchoClaimsRl(cfg, c.(sink := step.sink), Echo(c.sink));
    RequestStep(cfg, step.sink, RL_BINDING);
  }

  lemma DueEchoIsQuiet(cfg: Config, s: Sink)
    requires Inv(s) && ActIsActive(s) && Operational(s) && s.pendingAck.None? && s.log != []
    requires Last(s).mode == ManualAction && Last(s).action == ZERO_ACTION
    requires s.telemetry.Some? && s.telemetry.value.receivedNs == 0
    ensures var step := ObserveTelemetry(cfg, s, Echo(s), true); var t := step.sink;
      && step.outcome == Done && Operational(t) && t.authority == s.authority && t.log == s.log
      && t.telemetry == Some(Echo(s))
  {}
}
