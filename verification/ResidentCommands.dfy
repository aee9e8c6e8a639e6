/** The shared STM32 command sequence (edge_runtime/resident_commands.py).
    JSON text is not modelled: an encoding keeps its schema, axes and sequence. */
module ResidentCommands {
  import opened Wrappers
  import opened ResidentMotion

  type Sequence = n: nat | n <= 0xFFFF_FFFF

  /** (n + 1) & UINT32_MAX */
  function Successor(n: Sequence): Sequence { if n == 0xFFFF_FFFF then 0 else n + 1 }

  lemma SuccessorWraps(n: Sequence)
    ensures Successor(n) == (n + 1) % 0x1_0000_0000
  {}

  function Synchronized(rxSeq: Sequence, received: bool): Sequence {
    if received then Successor(rxSeq) else 0
  }

  /** What one command line carries: the wire axes in the schema's own order. */
  datatype Encoded =
    | Manual(x1: Axis, y1: Axis, x2: Axis, y2: Axis, commandSeq: Sequence, stampMs: nat)
    | Velocity(boom: Axis, stick: Axis, bucket: Axis, swing: Axis, commandSeq: Sequence, stampMs: nat)

  predicate Encodable(mode: ControlMode, a: Action) {
    IsFiniteAction(a) && (mode.ManualAction? ==> IsManualAction(a))
  }

  function DecodedMode(e: Encoded): ControlMode {
    if e.Manual? then ManualAction else VelocityReference
  }

  /** How the firmware reads the four axes of either schema back. */
  function DecodedAction(e: Encoded): Action {
    match e
    case Manual(x1, y1, x2, y2, _, _) => Action(y2, y1, x2, x1)
    case Velocity(boom, stick, bucket, swing, _, _) => Action(boom, stick, bucket, swing)
  }

  class Stm32ResidentCommandEncoder {
    var nextSequence: Sequence

    constructor ()
      ensures nextSequence == 0
    {
      nextSequence := 0;
    }

    method Synchronize(rxSeq: Sequence, received: bool) returns (next: Sequence)
      modifies this
      ensures next == nextSequence == Synchronized(rxSeq, received)
    {
      if received {
        nextSequence := Successor(rxSeq);
      } else {
        nextSequence := 0;
      }
      next := nextSequence;
    }

    /** A refused action leaves the sequence alone; an encoding consumes one
        number and can be read back, axis by axis, in the requested mode. */
    method Encode(mode: ControlMode, action: Action, now: nat) returns (line: Option<Encoded>)
      modifies this
      ensures line.Some? <==> Encodable(mode, action)
      ensures line.None? ==> nextSequence == old(nextSequence)
      ensures line.Some? ==>
        && nextSequence == Successor(old(nextSequence))
        && line.value.commandSeq == old(nextSequence)
        && line.value.stampMs == (now / 1_000_000) % 0x1_0000_0000
        && DecodedMode(line.value) == mode
        && DecodedAction(line.value) == action
    {
      if !IsFiniteAction(action) { return None; }
      var sequence := nextSequence;
      if mode == ManualAction {
        if !IsManualAction(action) { return None; }
        line := Some(Manual(action.swing, action.stick, action.bucket, action.boom,
          sequence, (now / 1_000_000) % 0x1_0000_0000));
      } else {
        line := Some(Velocity(action.boom, action.stick, action.bucket, action.swing,
          sequence, (now / 1_000_000) % 0x1_0000_0000));
      }
      nextSequence := Successor(sequence);
    }
  }
}
