/** A worker whose generation is no longer current cannot interfere, in any
    phase, with anything it sends. */
module StaleWorkers {
  import opened Wrappers
  import opened ResidentMotion
  import opened ResidentCommands
  import opened ResidentSink
  import opened ResidentIngress
  import opened HandoffInvariant

  lemma StaleCandidateIsIgnored(cfg: Config, s: Sink, c: MotionCandidate, now: nat, ok: bool)
    requires Inv(s) && c.generation != s.authority.generation
    ensures SubmitCandidate(cfg, s, c, now, ok).sink == s
  {}

  lemma StaleStopIsIgnored(s: Sink, binding: PolicyBinding, generation: nat, now: nat, ok: bool)
    requires generation != s.authority.generation
    ensures RequestSourceStop(s, binding, generation, now, ok).sink == s
  {}

  /** Nothing an adapter of an older generation sends changes the sink: no
      write, no change of authority, lease, pending acknowledgement or evidence. */
  lemma StaleWorkerCannotInterfere(cfg: Config, s: Sink, a: AdapterState, binding: PolicyBinding,
                                   v: VelocityPacket, p: CandidatePacket, now: nat, wallMs: nat, ok: bool)
    requires Inv(s) && a.generation != Some(s.authority.generation)
    ensures SendVelocity(cfg, s, a, binding, v, now, wallMs, ok).sink == s
    ensures SendCandidate(cfg, s, a, binding, p, now, ok).sink == s
    ensures RequestAdapterStop(s, a, binding, now, ok).sink == s
  {
    if a.generation.Some? {
      StaleStopIsIgnored(s, binding, a.generation.value, now, ok);
      var decoded := DecodeVelocity(v, wallMs, a.lastSequence);
      if decoded.Some? {
        StaleCandidateIsIgnored(cfg, s, VelocityCandidate(binding, a.generation.value, decoded.value, now), now, ok);
      }
      if p.CandidatePacket? && p.candidate.generation == a.generation.value {
        StaleCandidateIsIgnored(cfg, s, p.candidate, now, ok);
      }
    }
  }

  /** The converse on the current generation: a packet that breaks the contract
      of the active policy revokes it and zeroes the machine. */
  lemma CurrentViolationRevokes(cfg: Config, s: Sink, a: AdapterState, binding: PolicyBinding, now: nat, wallMs: nat)
    requires Inv(s) && Operational(s) && s.authority.phase.Active?
    requires s.authority.active == Some(binding) && a.generation == Some(s.authority.generation)
    ensures forall r | r in [SendVelocity(cfg, s, a, binding, BadVelocityPacket, now, wallMs, true),
                             SendCandidate(cfg, s, a, binding, BadCandidatePacket, now, true)] ::
      && r.outcome == Failed(MalformedPacket) && r.adapter.generation.None?
      && r.sink.authority == StopRequested(s.authority, now)
      && r.sink.lease.None? && r.sink.pendingAck.Some?
      && r.sink.log != [] && Last(r.sink).action == ZERO_ACTION && Last(r.sink).mode == binding.mode
  {
    var stop := RequestSourceStop(s, binding, a.generation.value, now, true);
    assert stop.outcome == Stopped(true) by {
      assert Encodable(binding.mode, ZERO_ACTION);
    }
    assert Last(stop.sink).action == ZERO_ACTION;
  }
}
