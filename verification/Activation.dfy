/** begin_activation is atomic in effect (edge_runtime/resident_ingress.py): it
    reads the authority first and requests the handoff in a later call of the sink,
    and whatever other threads do to the sink meanwhile, the result is that of one
    atomic step. */
module Activation {
  import opened Wrappers
  import opened ResidentMotion
  import opened ResidentSink
  import opened ResidentIngress
  import opened HandoffInvariant
  import opened SinkPreservation
  import opened SinkTheorems
  import opened SinkEffects
  import opened CoreInvariant

  // ---------- what a snapshot can see ----------

  /** The authority has a lock of its own, so a snapshot can fall inside a method of
      the sink.  Only a row makes one replace the state more than once: by the
      acknowledgement, by the latency, and by a revocation. */
  predicate Sees(cfg: Config, s: Sink, call: Call, ok: bool, a: AuthorityState) {
    || a == s.authority
    || a == Perform(cfg, s, call, ok).sink.authority
    || (RowOf(s, call).Some? && Operational(s) && !Regresses(s, RowOf(s, call).value) &&
        SeesInRow(cfg, Recorded(s, RowOf(s, call).value).(telemetry := RowOf(s, call)), RowOf(s, call).value, ok, a))
  }

  predicate SeesInRow(cfg: Config, s: Sink, f: Telemetry, ok: bool, a: AuthorityState) {
    var ack := AcknowledgePhase(cfg, s, f, ok);
    a == ack.sink.authority || (!ack.outcome.Failed? && a == FirstNonzeroPhase(ack.sink, f).sink.authority)
  }

  lemma CallKeepsOwner(cfg: Config, s: Sink, call: Call, ok: bool)
    requires Inv(s)
    ensures OwnerKept(s.authority, Perform(cfg, s, call, ok).sink.authority)
  {
    CallMoves(cfg, s, call, ok);
  }

  lemma {:induction false} RunKeepsOwner(cfg: Config, s: Sink, calls: seq<TimedCall>)
    requires Inv(s)
    ensures OwnerKept(s.authority, RunFrom(cfg, s, calls).authority)
    decreases |calls|
  {
    if calls != [] {
      PerformKeeps(cfg, s, calls[0].call, calls[0].ok);
      CallKeepsOwner(cfg, s, calls[0].call, calls[0].ok);
      RunKeepsOwner(cfg, Perform(cfg, s, calls[0].call, calls[0].ok).sink, calls[1..]);
    }
  }

  lemma RowIsSeenInOrder(cfg: Config, s: Sink, f: Telemetry, ok: bool, a: AuthorityState)
    requires WellShaped(s.authority) && SeesInRow(cfg, s, f, ok, a)
    ensures OwnerKept(s.authority, a) && OwnerKept(a, ProcessRow(cfg, s, f, ok).sink.authority)
  {
    var ack := AcknowledgePhase(cfg, s, f, ok);
    AckKeepsOwner(cfg, s, f, ok);
    FirstNonzeroKeepsOwner(ack.sink, f);
    SafetyKeepsOwner(cfg, FirstNonzeroPhase(ack.sink, f).sink, f, ok);
  }

  lemma CallIsSeenInOrder(cfg: Config, s: Sink, call: Call, ok: bool, a: AuthorityState)
    requires Inv(s) && Sees(cfg, s, call, ok, a)
    ensures OwnerKept(s.authority, a) && OwnerKept(a, Perform(cfg, s, call, ok).sink.authority)
  {
    CallKeepsOwner(cfg, s, call, ok);
    var row := RowOf(s, call);
    if row.Some? && Operational(s) && !Regresses(s, row.value) {
      var h := Recorded(s, row.value).(telemetry := row);
      if SeesInRow(cfg, h, row.value, ok, a) {
        RowIsSeenInOrder(cfg, h, row.value, ok, a);
      }
    }
  }

  // ---------- the claim ----------

  /** The adapter holds the machine, as far as one snapshot tells. */
  predicate HoldsIn(v: AuthorityState, a: AdapterState, binding: PolicyBinding) {
    a.generation == Some(v.generation) && (v.active == Some(binding) || v.target == Some(binding))
  }

  /** begin_activation with its two sections apart: what the snapshot shows, and the
      sink the handoff is requested from. */
  function BeginInTwoSections(v: AuthorityState, s: Sink, a: AdapterState, binding: PolicyBinding, now: nat, ok: bool)
    : Ingress
  {
    if HoldsIn(v, a, binding) then Ingress(s, a, Generation(v.generation))
    else
      var step := RequestHandoff(s, binding, now, ok);
      if step.outcome.Generation? then
        Ingress(step.sink, AdapterState(Some(step.outcome.generation), None), step.outcome)
      else Ingress(step.sink, a, step.outcome)
  }

  /** What a snapshot shows of a claim was true before and stays false after. */
  lemma SnapshotDecides(s: Sink, v: AuthorityState, t: Sink, a: AdapterState, binding: PolicyBinding)
    requires AdapterOk(s, a, binding) && OwnerKept(s.authority, v) && OwnerKept(v, t.authority)
    ensures HoldsIn(v, a, binding) ==> Holds(s, a, binding) && v.generation == s.authority.generation
    ensures !HoldsIn(v, a, binding) ==> !Holds(t, a, binding)
  {}

  /** The snapshot falls into some call of another thread, or beside it, and further
      calls follow before the request.  The claim is one atomic step all the same:
      before that call if the snapshot shows that the adapter holds the machine,
      after all of them if not. */
  lemma BeginActivationIsAtomic(cfg: Config, s: Sink, a: AdapterState, binding: PolicyBinding,
                                during: TimedCall, after: seq<TimedCall>, v: AuthorityState, now: nat, ok: bool)
    requires Inv(s) && AdapterOk(s, a, binding) && Sees(cfg, s, during.call, during.ok, v)
    ensures var calls := [during] + after;
      var split := BeginInTwoSections(v, RunFrom(cfg, s, calls), a, binding, now, ok);
      if HoldsIn(v, a, binding) then
        var first := BeginActivation(s, a, binding, now, ok);
        split == Ingress(RunFrom(cfg, first.sink, calls), first.adapter, first.outcome)
      else split == BeginActivation(RunFrom(cfg, s, calls), a, binding, now, ok)
  {
    var q := Perform(cfg, s, during.call, during.ok).sink;
    CallIsSeenInOrder(cfg, s, during.call, during.ok, v);
    PerformKeeps(cfg, s, during.call, during.ok);
    RunKeepsOwner(cfg, q, after);
    assert ([during] + after)[1..] == after;
    ThroughCall(v, q.authority, RunFrom(cfg, q, after).authority);
    SnapshotDecides(s, v, RunFrom(cfg, q, after), a, binding);
  }

  lemma ThroughCall(a: AuthorityState, b: AuthorityState, c: AuthorityState)
    requires OwnerKept(a, b) && OwnerKept(b, c)
    ensures OwnerKept(a, c)
  {}
}
