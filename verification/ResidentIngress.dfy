/** The two adapters between policy workers and the command sink
    (edge_runtime/resident_ingress.py).  Decoding is abstracted to a typed
    packet; the checks made on decoded values are kept. */
module ResidentIngress {
  import opened Wrappers
  import opened ResidentMotion
  import opened ResidentSink

  datatype AdapterState = AdapterState(generation: Option<nat>, lastSequence: Option<nat>)

  const INACTIVE_ADAPTER := AdapterState(None, None)

  const MAX_FUTURE_SKEW_MS := 50

  datatype VelocityPacket =
    | BadVelocityPacket
    | VelocityPacket(sequence: nat, action: Action, stampMs: nat, validForMs: nat)

  datatype CandidatePacket =
    | BadCandidatePacket
    | CandidatePacket(candidate: MotionCandidate)

  datatype DecodedVelocity = DecodedVelocity(sequence: nat, action: Action, remainingLeaseMs: nat)

  /** _decode_velocity_action; None is the ValueError. */
  function DecodeVelocity(p: VelocityPacket, wallMs: nat, last: Option<nat>): Option<DecodedVelocity> {
    if p.BadVelocityPacket? || !IsFiniteAction(p.action) then None
    else if last.Some? && p.sequence <= last.value then None
    else if p.stampMs - wallMs > MAX_FUTURE_SKEW_MS then None
    else if p.stampMs + p.validForMs < wallMs then None
    else Some(DecodedVelocity(p.sequence, p.action, p.stampMs + p.validForMs - wallMs))
  }

  /** An adapter call: the sink and the adapter afterwards, and the outcome. */
  datatype Ingress = Ingress(sink: Sink, adapter: AdapterState, outcome: Outcome)

  predicate Holds(s: Sink, a: AdapterState, binding: PolicyBinding) {
    && a.generation == Some(s.authority.generation)
    && (s.authority.active == Some(binding) || s.authority.target == Some(binding))
  }

  /** begin_activation, the same in both adapters. */
  function BeginActivation(s: Sink, a: AdapterState, binding: PolicyBinding, now: nat, ok: bool): Ingress {
    if Holds(s, a, binding) then Ingress(s, a, Generation(s.authority.generation))
    else
      var step := RequestHandoff(s, binding, now, ok);
      if step.outcome.Generation? then
        Ingress(step.sink, AdapterState(Some(step.outcome.generation), None), step.outcome)
      else Ingress(step.sink, a, step.outcome)
  }

  /** What both adapters do with a packet that breaks the contract: stop their
      own generation, forget it, and raise. */
  function Violation(s: Sink, a: AdapterState, binding: PolicyBinding, generation: nat, now: nat, error: Error, ok: bool)
    : Ingress
  {
    var stop := RequestSourceStop(s, binding, generation, now, ok);
    Ingress(stop.sink, a.(generation := None), if stop.outcome.Failed? then stop.outcome else Failed(error))
  }

  /** The candidate an RL packet stands for; its lease is what the packet leaves. */
  function VelocityCandidate(binding: PolicyBinding, generation: nat, d: DecodedVelocity, now: nat): MotionCandidate {
    MotionCandidate(binding.source, generation, binding.mode, d.action, now, now + d.remainingLeaseMs * 1_000_000, None)
  }

  /** ResidentVelocityActionAdapter.send.  A candidate that cannot be built raises
      after the packet was counted, and stops nothing. */
  function SendVelocity(cfg: Config, s: Sink, a: AdapterState, binding: PolicyBinding, p: VelocityPacket,
                        now: nat, wallMs: nat, ok: bool): Ingress
  {
    if a.generation.None? then Ingress(s, a, Failed(NotActivated))
    else
      var decoded := DecodeVelocity(p, wallMs, a.lastSequence);
      if decoded.None? then Violation(s, a, binding, a.generation.value, now, MalformedPacket, ok)
      else
        var counted := a.(lastSequence := Some(decoded.value.sequence));
        var c := VelocityCandidate(binding, a.generation.value, decoded.value, now);
        if !Representable(c) then Ingress(s, counted, Failed(InvalidCandidate))
        else
          var step := SubmitCandidate(cfg, s, c, now, ok);
          Ingress(step.sink, counted, step.outcome)
  }

  /** ResidentPolicyCandidateAdapter.send */
  function SendCandidate(cfg: Config, s: Sink, a: AdapterState, binding: PolicyBinding, p: CandidatePacket,
                         now: nat, ok: bool): Ingress
  {
    if a.generation.None? then Ingress(s, a, Failed(NotActivated))
    else if p.BadCandidatePacket? then Violation(s, a, binding, a.generation.value, now, MalformedPacket, ok)
    else if p.candidate.generation != a.generation.value then
      Ingress(s, a, Rejection(StaleGeneration, Some(binding.mode)))
    else if p.candidate.source != binding.source || p.candidate.mode != binding.mode then
      Violation(s, a, binding, a.generation.value, now, PolicyMismatch, ok)
    else
      var step := SubmitCandidate(cfg, s, p.candidate, now, ok);
      Ingress(step.sink, a, step.outcome)
  }

  /** ResidentVelocityActionAdapter.request_stop */
  function RequestAdapterStop(s: Sink, a: AdapterState, binding: PolicyBinding, now: nat, ok: bool): Ingress {
    if a.generation.None? then Ingress(s, a, Stopped(false))
    else
      var stop := RequestSourceStop(s, binding, a.generation.value, now, ok);
      Ingress(stop.sink, if stop.outcome.Failed? then a else a.(generation := None), stop.outcome)
  }
}
