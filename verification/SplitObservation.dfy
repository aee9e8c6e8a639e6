/** observe_telemetry enters the sink first and takes the owner's lock afterwards
    (edge_runtime/resident_core.py), so other calls may come between its two parts.
    Given that a row echoes only what was written before it, the owner's invariant
    does not depend on their being one step. */
module SplitObservation {
  import opened Wrappers
  import opened ResidentSink
  import opened ResidentCore
  import opened HandoffInvariant
  import opened CoreInvariant
  import opened CorePreservation

  /** A whole call, or one of the two parts of an observation. */
  datatype Part =
    | Whole(call: CoreCall, ok: bool)
    | SinkPart(frame: Telemetry, ok: bool)
    | OwnerPart(frame: Telemetry, ok: bool)

  function PerformPart(cfg: CoreConfig, c: Core, part: Part): Core {
    match part
    case Whole(call, ok) => PerformCore(cfg, c, call, ok).core
    case SinkPart(f, ok) => c.(sink := ObserveTelemetry(cfg.sink, c.sink, f, ok).sink)
    case OwnerPart(f, ok) => AfterObserve(c, f, ok).core
  }

  /** A row that echoes the last command as a zero was handed in after it. */
  ghost predicate EchoComesAfter(s: Sink, f: Telemetry) {
    s.log != [] && EchoesZero(f, Last(s)) ==> JustSeen(s, f)
  }

  lemma SinkPartKeepsCore(cfg: CoreConfig, c: Core, f: Telemetry, ok: bool)
    requires CoreInv(cfg, c)
    ensures CoreInv(cfg, PerformPart(cfg, c, SinkPart(f, ok)))
  {
    ObserveIsQuiet(cfg.sink, c.sink, f, ok);
    QuietMoveKeeps(cfg, c, ObserveTelemetry(cfg.sink, c.sink, f, ok).sink);
  }

  lemma OwnerPartKeepsCore(cfg: CoreConfig, c: Core, f: Telemetry, ok: bool)
    requires CoreInv(cfg, c) && EchoComesAfter(c.sink, f)
    ensures CoreInv(cfg, AfterObserve(c, f, ok).core)
  {
    if c.disarmResult.None? || TerminalZeroEchoed(c.disarmResult.value, f) {
      AfterObserveKeepsCore(cfg, c, f, ok);
    } else if SegmentEchoed(c.segment, f) && ActIsActive(c.sink) && c.segment.generation == Some(c.sink.authority.generation) {
      CompletionKeepsCore(cfg, c, f, ok);
    }
  }

  function RunParts(cfg: CoreConfig, parts: seq<Part>): Core {
    if parts == [] then INITIAL_CORE
    else PerformPart(cfg, RunParts(cfg, parts[..|parts| - 1]), parts[|parts| - 1])
  }

  ghost predicate CausalParts(cfg: CoreConfig, parts: seq<Part>) {
    forall k | 0 <= k < |parts| && parts[k].OwnerPart? :: EchoComesAfter(RunParts(cfg, parts[..k]).sink, parts[k].frame)
  }

  lemma PartKeepsCore(cfg: CoreConfig, c: Core, part: Part)
    requires CoreInv(cfg, c) && (part.OwnerPart? ==> EchoComesAfter(c.sink, part.frame))
    ensures CoreInv(cfg, PerformPart(cfg, c, part))
  {
    match part
    case Whole(call, ok) => PerformCoreKeeps(cfg, c, call, ok);
    case SinkPart(f, ok) => SinkPartKeepsCore(cfg, c, f, ok);
    case OwnerPart(f, ok) => OwnerPartKeepsCore(cfg, c, f, ok);
  }

  /** Over every interleaving of whole calls and parts of observations the owner's
      invariant holds: the step budget is conserved, and a release rests on
      evidence. */
  lemma {:induction false} EverySplitRunKeepsInvariant(cfg: CoreConfig, parts: seq<Part>)
    requires CausalParts(cfg, parts)
    ensures CoreInv(cfg, RunParts(cfg, parts))
  {
    if parts != [] {
      var n := |parts| - 1;
      var before := parts[..n];
      assert forall k | 0 <= k < n :: before[k] == parts[k] && before[..k] == parts[..k];
      EverySplitRunKeepsInvariant(cfg, before);
      assert parts[n].OwnerPart? ==> EchoComesAfter(RunParts(cfg, parts[..n]).sink, parts[n].frame);
      PartKeepsCore(cfg, RunParts(cfg, before), parts[n]);
    }
  }
}
