/** How the owner process ends (orin_state_sender.py: the cleanup of main, with
    wait_for_resident_terminal_zero_ack, resident_terminal_zero_is_acknowledged,
    resident_owner_tick_requests_exit).  The serial port is closed in every case;
    evidence of a stopped machine decides only whether the process ends without an
    error. */
module OwnerRelease {
  import opened Wrappers
  import opened ResidentMotion
  import opened ResidentCommands
  import opened ResidentSink
  import opened ResidentCore
  import opened ResidentMotionCores
  import opened HandoffInvariant
  import opened SinkTheorems
  import opened CoreInvariant
  import opened CorePreservation
  import opened CoreTheorems
  import opened MissionLeaseOverrun

  /** What one readline gives: a parsed row, nothing usable, or an OSError. */
  datatype Read = Row(frame: Telemetry) | Unusable | PortError

  /** The clock the loop compares with its deadline, and the read that follows. */
  datatype Attempted = Attempted(clock: real, read: Read)

  /** The result that stands for an idle sink: nothing had to be written. */
  predicate IdleResult(r: WriteResult) {
    && !r.writePerformed && r.reason.TerminalDisarm? && r.commandSeq.None? && r.mode.None?
    && r.effectiveAction == ZERO_ACTION
  }

  /** The k-th read is reached: no earlier one came too late, broke the port or
      already was the echo. */
  predicate Reached(rows: seq<Attempted>, deadline: real, r: WriteResult, k: nat)
    requires k < |rows|
  {
    && rows[k].clock < deadline
    && forall i | 0 <= i < k ::
         && rows[i].clock < deadline && !rows[i].read.PortError?
         && !(rows[i].read.Row? && TerminalZeroEchoed(r, rows[i].read.frame))
  }

  /** The exact echo of the terminal zero is read in time on a working port. */
  ghost predicate EchoRead(rows: seq<Attempted>, deadline: real, r: WriteResult) {
    exists k :: 0 <= k < |rows| && Reached(rows, deadline, r, k) &&
                rows[k].read.Row? && TerminalZeroEchoed(r, rows[k].read.frame)
  }

  ghost predicate WaitSucceeds(r: WriteResult, started: real, timeout: Axis, rows: seq<Attempted>) {
    timeout.Finite? && timeout.value > 0.0 &&
    if r.writePerformed then EchoRead(rows, started + timeout.value, r) else IdleResult(r)
  }

  /** wait_for_resident_terminal_zero_ack; None is the ValueError.  When rows
      runs out the clock has passed the deadline. */
  method WaitForTerminalZeroAck(r: WriteResult, started: real, timeout: Axis, rows: seq<Attempted>)
    returns (acknowledged: Option<bool>)
    ensures acknowledged.None? <==> !(timeout.Finite? && timeout.value > 0.0)
    ensures acknowledged == Some(true) <==> WaitSucceeds(r, started, timeout, rows)
  {
    if !timeout.Finite? || timeout.value <= 0.0 { return None; }
    if !r.writePerformed { return Some(IdleResult(r)); }
    if r.commandSeq.None? || r.mode.None? || r.effectiveAction != ZERO_ACTION { return Some(false); }
    var deadline := started + timeout.value;
    var k := 0;
    while k < |rows| && rows[k].clock < deadline
      invariant k <= |rows|
      invariant forall i | 0 <= i < k ::
        && rows[i].clock < deadline && !rows[i].read.PortError?
        && !(rows[i].read.Row? && TerminalZeroEchoed(r, rows[i].read.frame))
    {
      if rows[k].read.PortError? { return Some(false); }
      if rows[k].read.Row? {
        var f := rows[k].read.frame;
        if f.rxSeq == r.commandSeq.value && f.commandValid && !f.commandTimedOut && f.mode == r.mode &&
           f.action == ZERO_ACTION
        {
          assert Reached(rows, deadline, r, k);
          return Some(true);
        }
      }
      k := k + 1;
    }
    acknowledged := Some(false);
  }

  /** resident_terminal_zero_is_acknowledged */
  ghost predicate Releases(c: Core, r: WriteResult, started: real, timeout: Axis, rows: seq<Attempted>) {
    c.zeroAcknowledged || WaitSucceeds(r, started, timeout, rows)
  }

  /** A row read by the wait loop echoed the last command. */
  ghost predicate LastZeroRead(s: Sink, rows: seq<Attempted>) {
    s.log != [] && exists k :: 0 <= k < |rows| && rows[k].read.Row? && EchoesZero(rows[k].read.frame, Last(s))
  }

  /** The result of the terminal disarm names the last command, so an echo of
      one is an echo of the other. */
  lemma EchoOfResultIsEchoOfLast(c: Core, f: Telemetry)
    requires DisarmOk(c) && c.disarmResult.Some? && c.disarmResult.value.writePerformed
    ensures c.sink.log != [] && (TerminalZeroEchoed(c.disarmResult.value, f) <==> EchoesZero(f, Last(c.sink)))
  {}

  lemma ReleaseHasEvidence(c: Core, started: real, timeout: Axis, rows: seq<Attempted>)
    requires DisarmOk(c) && c.disarmResult.Some?
    requires Releases(c, c.disarmResult.value, started, timeout, rows)
    ensures if c.disarmResult.value.writePerformed then LastZeroEchoed(c.sink) || LastZeroRead(c.sink, rows)
            else AllMotionReleased(c.sink)
  {}

  /** Whatever happened before, the test passes after a terminal disarm only if the
      last command was a zero that came back echoed, to the core or to the wait
      loop, or nothing needed stopping any more. */
  lemma ReleaseTestIsOnEvidence(cfg: CoreConfig, calls: seq<TimedCoreCall>, started: real, timeout: Axis,
                                 rows: seq<Attempted>)
    requires RunCore(cfg, calls).disarmResult.Some?
    requires var c := RunCore(cfg, calls); Releases(c, c.disarmResult.value, started, timeout, rows)
    ensures var c := RunCore(cfg, calls);
      && c.sink.disarmed
      && if c.disarmResult.value.writePerformed then LastZeroEchoed(c.sink) || LastZeroRead(c.sink, rows)
         else AllMotionReleased(c.sink)
  {
    EveryCoreRunKeepsInvariant(cfg, calls);
    ReleaseHasEvidence(RunCore(cfg, calls), started, timeout, rows);
  }

  /** The wait loop and the core accept the same rows: a written terminal zero is
      released by the wait loop exactly when some row reached in time echoes the
      last command. */
  lemma WaitAcceptsEchoesOfLast(cfg: CoreConfig, calls: seq<TimedCoreCall>, started: real, timeout: Axis,
                                rows: seq<Attempted>)
    requires RunCore(cfg, calls).disarmResult.Some? && RunCore(cfg, calls).disarmResult.value.writePerformed
    requires timeout.Finite? && timeout.value > 0.0
    ensures var c := RunCore(cfg, calls); var r := c.disarmResult.value;
      && c.sink.log != []
      && (WaitSucceeds(r, started, timeout, rows) <==>
          exists k :: 0 <= k < |rows| && Reached(rows, started + timeout.value, r, k) &&
                      rows[k].read.Row? && EchoesZero(rows[k].read.frame, Last(c.sink)))
  {
    EveryCoreRunKeepsInvariant(cfg, calls);
    var c := RunCore(cfg, calls);
    forall f: Telemetry
      ensures c.sink.log != [] && (TerminalZeroEchoed(c.disarmResult.value, f) <==> EchoesZero(f, Last(c.sink)))
    {
      EchoOfResultIsEchoOfLast(c, f);
    }
  }

  // ---------- the end of the process ----------

  const TERMINAL_ACK_TIMEOUT := Finite(0.6)

  /** How the cleanup of main ends: without an error, or with the RuntimeError that
      names a missing acknowledgement, or with what terminal_disarm raised. */
  datatype Ending = Ended | NotAcknowledged | DisarmRaised(error: Error)

  class SerialPort {
    var open: bool

    method Close()
      modifies this
      ensures !open
    {
      open := false;
    }
  }

  ghost function EndingOf(c: Core, now: nat, ok: bool, started: real, rows: seq<Attempted>): Ending {
    var d := CoreDisarm(c, now, ok);
    if d.outcome.Failed? then DisarmRaised(d.outcome.error)
    else if d.outcome.Result? && Releases(d.core, d.outcome.result, started, TERMINAL_ACK_TIMEOUT, rows) then Ended
    else NotAcknowledged
  }

  /** The cleanup of main: an initialized owner is disarmed and its last zero
      awaited, and then the port is closed, whatever came of it. */
  method EndOwner(core: ResidentMotionCore?, initialized: bool, now: nat, ok: bool, started: real,
                  rows: seq<Attempted>, port: SerialPort)
    returns (ending: Ending)
    requires core != null ==> core.Valid()
    modifies port, if core == null then {} else {core, core.sink, core.sink.authority, core.sink.encoder}
    ensures !port.open
    ensures core == null || !initialized ==> ending == Ended
    ensures core != null && !initialized ==> core.State() == old(core.State())
    ensures core != null && initialized ==>
      && core.Valid() && core.State() == CoreDisarm(old(core.State()), now, ok).core
      && ending == EndingOf(old(core.State()), now, ok, started, rows)
  {
    ending := Ended;
    if core != null && initialized {
      var outcome := core.TerminalDisarm(now, ok);
      if outcome.Failed? {
        ending := DisarmRaised(outcome.error);
      } else if outcome.Result? {
        var acknowledged := core.zeroAcknowledged;
        if !acknowledged {
          var waited := WaitForTerminalZeroAck(outcome.result, started, TERMINAL_ACK_TIMEOUT, rows);
          acknowledged := waited == Some(true);
        }
        if !acknowledged {
          ending := NotAcknowledged;
        }
      } else {
        ending := NotAcknowledged;
      }
    }
    port.Close();
  }

  /** Some row reached in time echoes the last command. */
  ghost predicate LastEchoedInTime(s: Sink, r: WriteResult, deadline: real, rows: seq<Attempted>) {
    s.log != [] && exists k ::
      0 <= k < |rows| && Reached(rows, deadline, r, k) && rows[k].read.Row? && EchoesZero(rows[k].read.frame, Last(s))
  }

  lemma DisarmedCoreIsOk(cfg: CoreConfig, calls: seq<TimedCoreCall>, now: nat, ok: bool)
    ensures var d := CoreDisarm(RunCore(cfg, calls), now, ok);
      && CoreInv(cfg, d.core) && (d.outcome.Failed? || d.outcome.Result?)
      && (d.outcome.Result? ==> d.core.disarmResult == Some(d.outcome.result))
  {
    EveryCoreRunKeepsInvariant(cfg, calls);
    DisarmKeepsCore(cfg, RunCore(cfg, calls), now, ok);
    DisarmReturns(RunCore(cfg, calls), now, ok);
  }

  lemma DisarmReturns(c: Core, now: nat, ok: bool)
    ensures var d := CoreDisarm(c, now, ok);
      && (d.outcome.Failed? || d.outcome.Result?)
      && (d.outcome.Result? ==> d.core.disarmResult == Some(d.outcome.result))
  {}

  lemma ReadsEchoesOfLast(c: Core, started: real, rows: seq<Attempted>)
    requires DisarmOk(c) && c.disarmResult.Some? && c.disarmResult.value.writePerformed
    ensures var r := c.disarmResult.value;
      WaitSucceeds(r, started, TERMINAL_ACK_TIMEOUT, rows) <==> LastEchoedInTime(c.sink, r, started + 0.6, rows)
  {
    forall f: Telemetry
      ensures c.sink.log != [] && (TerminalZeroEchoed(c.disarmResult.value, f) <==> EchoesZero(f, Last(c.sink)))
    {
      EchoOfResultIsEchoOfLast(c, f);
    }
  }

  /** Over every run: the process ends without an error exactly if the disarm
      returned and the owner had its zero acknowledged, a row reached in time
      echoes the last command, or the result is that of an idle sink. */
  lemma EndIsCleanIff(cfg: CoreConfig, calls: seq<TimedCoreCall>, now: nat, ok: bool, started: real, rows: seq<Attempted>)
    ensures var d := CoreDisarm(RunCore(cfg, calls), now, ok);
      var ending := EndingOf(RunCore(cfg, calls), now, ok, started, rows);
      && (ending.DisarmRaised? <==> d.outcome.Failed?)
      && (ending.Ended? <==>
          d.outcome.Result? &&
          var r := d.outcome.result;
          || d.core.zeroAcknowledged
          || (r.writePerformed && LastEchoedInTime(d.core.sink, r, started + 0.6, rows))
          || IdleResult(r))
  {
    var d := CoreDisarm(RunCore(cfg, calls), now, ok);
    DisarmedCoreIsOk(cfg, calls, now, ok);
    if d.outcome.Result? && d.outcome.result.writePerformed {
      ReadsEchoesOfLast(d.core, started, rows);
    }
  }

  /** Over every run: a process that ends without an error has left the last command
      a zero that came back echoed, or nothing that needed stopping. */
  lemma CleanEndHasEvidence(cfg: CoreConfig, calls: seq<TimedCoreCall>, now: nat, ok: bool, started: real,
                            rows: seq<Attempted>)
    requires EndingOf(RunCore(cfg, calls), now, ok, started, rows).Ended?
    ensures var d := CoreDisarm(RunCore(cfg, calls), now, ok);
      && d.core.sink.disarmed && d.outcome.Result?
      && if d.outcome.result.writePerformed then LastZeroEchoed(d.core.sink) || LastZeroRead(d.core.sink, rows)
         else AllMotionReleased(d.core.sink)
  {
    var d := CoreDisarm(RunCore(cfg, calls), now, ok);
    DisarmedCoreIsOk(cfg, calls, now, ok);
    ReleaseHasEvidence(d.core, started, TERMINAL_ACK_TIMEOUT, rows);
  }

  /** The converse input: motion under way, and no row read that echoes the zero
      the disarm writes.  The process raises, the port is closed all the same, and
      no row ever showed that the machine took the zero. */
  lemma UnechoedStopIsNotAcknowledged(cfg: CoreConfig, c: Core, now: nat, started: real, rows: seq<Attempted>)
    requires CoreInv(cfg, c) && Operational(c.sink) && LastIsNonzero(c.sink)
    requires var d := CoreDisarm(c, now, true).core;
      d.sink.log != [] ==>
        forall k | 0 <= k < |rows| && rows[k].read.Row? :: !EchoesZero(rows[k].read.frame, Last(d.sink))
    ensures EndingOf(c, now, true, started, rows) == NotAcknowledged
    ensures var s := CoreDisarm(c, now, true).core.sink;
      && |s.log| == |c.sink.log| + 1 && !Nonzero(Last(s)) && Last(s).reason.TerminalDisarm?
      && !LastZeroEchoed(s) && !LastZeroRead(s, rows)
  {
    var d := CoreDisarm(c, now, true);
    DisarmKeepsCore(cfg, c, now, true);
    DisarmWritesZero(c, now);
    ReadsEchoesOfLast(d.core, started, rows);
  }

  lemma DisarmWritesZero(c: Core, now: nat)
    requires Inv(c.sink) && Operational(c.sink) && LastIsNonzero(c.sink) && c.disarmResult.None?
    ensures var d := CoreDisarm(c, now, true);
      && d.outcome.Result? && d.outcome.result.writePerformed && !d.core.zeroAcknowledged
      && d.core.disarmResult == Some(d.outcome.result)
      && d.core.sink.seen == c.sink.seen && |d.core.sink.log| == |c.sink.log| + 1
      && !Nonzero(Last(d.core.sink)) && Last(d.core.sink).reason.TerminalDisarm?
      && forall j | 0 <= j < |c.sink.seen| :: c.sink.seen[j].at <= |c.sink.log|
  {
    assert Encodable(c.sink.authority.active.value.mode, ZERO_ACTION);
  }

  /** A run that ends so: ACT moves the machine, and the port breaks off before
      anything is read. */
  lemma RunCanEndUnacknowledged(cfg: CoreConfig) returns (calls: seq<TimedCoreCall>)
    ensures Operational(RunCore(cfg, calls).sink) && LastIsNonzero(RunCore(cfg, calls).sink)
    ensures EndingOf(RunCore(cfg, calls), 500_000_001, true, 0.0, []) == NotAcknowledged
    ensures !LastZeroEchoed(CoreDisarm(RunCore(cfg, calls), 500_000_001, true).core.sink)
  {
    var before, next := MotionHappensAtDeadline(cfg);
    calls := before + [next];
    RunExtends(cfg, before, next);
    EveryCoreRunKeepsInvariant(cfg, calls);
    UnechoedStopIsNotAcknowledged(cfg, RunCore(cfg, calls), 500_000_001, 0.0, []);
  }

  /** resident_owner_tick_requests_exit: ticks an initialized owner and asks for
      exit exactly when it is no longer operational and may be released. */
  method OwnerTick(core: ResidentMotionCore?, initialized: bool, now: nat, releaseAllowed: bool, ok: bool)
    returns (exit: Attempt<bool>)
    requires core != null ==> core.Valid()
    modifies if core == null then {} else {core, core.sink, core.sink.authority, core.sink.encoder}
    ensures core == null || !initialized ==> exit == Ok(false)
    ensures core != null && !initialized ==> core.State() == old(core.State())
    ensures core != null && initialized ==>
      && core.Valid() && core.State() == CoreTick(core.cfg, old(core.State()), now, ok).core
      && exit == if CoreTick(core.cfg, old(core.State()), now, ok).outcome.Failed?
                 then Raised(CoreTick(core.cfg, old(core.State()), now, ok).outcome.error)
                 else Ok(!Operational(core.State().sink) && releaseAllowed)
  {
    if core == null || !initialized { return Ok(false); }
    var outcome := core.Tick(now, ok);
    if outcome.Failed? { return Raised(outcome.error); }
    if core.sink.RefusalNow().None? { return Ok(false); }
    exit := Ok(releaseAllowed);
  }
}
