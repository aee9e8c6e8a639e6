/** The two ingress adapters in place (edge_runtime/resident_ingress.py): each
    remembers the generation it was given and calls the one shared sink. */
module ResidentAdapters {
  import opened Wrappers
  import opened ResidentMotion
  import opened ResidentSink
  import opened ResidentCommandSinks
  import opened ResidentIngress
  import Spec = ResidentIngress

  class ResidentVelocityActionAdapter {
    const sink: ResidentCommandSink
    const binding: PolicyBinding
    var generation: Option<nat>
    var lastSequence: Option<nat>

    function State(): AdapterState
      reads this
    {
      AdapterState(generation, lastSequence)
    }

    constructor (sink: ResidentCommandSink, source: string)
      ensures this.sink == sink && binding == PolicyBinding(source, VelocityReference) && State() == INACTIVE_ADAPTER
    {
      this.sink := sink;
      binding := PolicyBinding(source, VelocityReference);
      generation, lastSequence := None, None;
    }

    method BeginActivation(now: nat, ok: bool) returns (outcome: Outcome)
      requires sink.Valid()
      modifies this, sink, sink.authority, sink.encoder
      ensures sink.Valid()
      ensures Ingress(sink.State(), State(), outcome) == Spec.BeginActivation(old(sink.State()), old(State()), binding, now, ok)
    {
      if generation.Some? {
        var snapshot := sink.authority.state;
        if snapshot.generation == generation.value && (snapshot.active == Some(binding) || snapshot.target == Some(binding)) {
          return Generation(generation.value);
        }
      }
      outcome := sink.RequestHandoff(binding, now, ok);
      if outcome.Generation? {
        generation, lastSequence := Some(outcome.generation), None;
      }
    }

    method Send(p: VelocityPacket, now: nat, wallMs: nat, ok: bool) returns (outcome: Outcome)
      requires sink.Valid()
      modifies this, sink, sink.authority, sink.encoder
      ensures sink.Valid()
      ensures Ingress(sink.State(), State(), outcome) ==
              SendVelocity(sink.cfg, old(sink.State()), old(State()), binding, p, now, wallMs, ok)
    {
      if generation.None? { return Failed(NotActivated); }
      var decoded := DecodeVelocity(p, wallMs, lastSequence);
      if decoded.None? {
        outcome := sink.RequestSourceStop(binding, generation.value, now, ok);
        generation := None;
        if !outcome.Failed? { outcome := Failed(MalformedPacket); }
        return;
      }
      lastSequence := Some(decoded.value.sequence);
      var candidate := VelocityCandidate(binding, generation.value, decoded.value, now);
      if !Representable(candidate) { return Failed(InvalidCandidate); }
      outcome := sink.SubmitCandidate(candidate, now, ok);
    }

    method RequestStop(now: nat, ok: bool) returns (outcome: Outcome)
      requires sink.Valid()
      modifies this, sink, sink.authority, sink.encoder
      ensures sink.Valid()
      ensures Ingress(sink.State(), State(), outcome) ==
              RequestAdapterStop(old(sink.State()), old(State()), binding, now, ok)
    {
      if generation.None? { return Stopped(false); }
      outcome := sink.RequestSourceStop(binding, generation.value, now, ok);
      if !outcome.Failed? { generation := None; }
    }
  }

  class ResidentPolicyCandidateAdapter {
    const sink: ResidentCommandSink
    const binding: PolicyBinding
    var generation: Option<nat>
    // The source's state record has this field too; this adapter never sets it.
    var lastSequence: Option<nat>

    function State(): AdapterState
      reads this
    {
      AdapterState(generation, lastSequence)
    }

    constructor (sink: ResidentCommandSink, binding: PolicyBinding)
      ensures this.sink == sink && this.binding == binding && State() == INACTIVE_ADAPTER
    {
      this.sink := sink;
      this.binding := binding;
      generation, lastSequence := None, None;
    }

    method BeginActivation(now: nat, ok: bool) returns (outcome: Outcome)
      requires sink.Valid()
      modifies this, sink, sink.authority, sink.encoder
      ensures sink.Valid()
      ensures Ingress(sink.State(), State(), outcome) == Spec.BeginActivation(old(sink.State()), old(State()), binding, now, ok)
    {
      var snapshot := sink.authority.state;
      if generation == Some(snapshot.generation) && (snapshot.active == Some(binding) || snapshot.target == Some(binding)) {
        return Generation(snapshot.generation);
      }
      outcome := sink.RequestHandoff(binding, now, ok);
      if outcome.Generation? {
        generation, lastSequence := Some(outcome.generation), None;
      }
    }

    method StopOnViolation(error: Error, now: nat, ok: bool) returns (outcome: Outcome)
      requires sink.Valid() && generation.Some?
      modifies this, sink, sink.authority, sink.encoder
      ensures sink.Valid()
      ensures Ingress(sink.State(), State(), outcome) ==
              Violation(old(sink.State()), old(State()), binding, old(generation).value, now, error, ok)
    {
      outcome := sink.RequestSourceStop(binding, generation.value, now, ok);
      generation := None;
      if !outcome.Failed? { outcome := Failed(error); }
    }

    method Send(p: CandidatePacket, now: nat, ok: bool) returns (outcome: Outcome)
      requires sink.Valid()
      modifies this, sink, sink.authority, sink.encoder
      ensures sink.Valid()
      ensures Ingress(sink.State(), State(), outcome) ==
              SendCandidate(sink.cfg, old(sink.State()), old(State()), binding, p, now, ok)
    {
      if generation.None? { return Failed(NotActivated); }
      if p.BadCandidatePacket? {
        outcome := StopOnViolation(MalformedPacket, now, ok);
        return;
      }
      var c := p.candidate;
      if c.generation != generation.value { return Rejection(StaleGeneration, Some(binding.mode)); }
      if c.source != binding.source || c.mode != binding.mode {
        outcome := StopOnViolation(PolicyMismatch, now, ok);
        return;
      }
      outcome := sink.SubmitCandidate(c, now, ok);
    }
  }
}
