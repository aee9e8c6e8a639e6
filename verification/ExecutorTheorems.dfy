/** The executor's event stream over every run, with callbacks that call back. */
module ExecutorTheorems {
  import opened Wrappers
  import opened Executor

  // ---------- a reader of the event stream ----------

  /** What a reader of the history knows: no behavior, one running, or one whose
      runner was closed and whose result may follow at once. */
  datatype Reader = Free | Running(owner: Owner) | Closing(owner: Owner)

  datatype Owner = Owner(session: string, request: string, sink: nat, runner: nat)

  predicate About(e: Event, o: Owner) { e.session == o.session && e.request == o.request && e.sink == o.sink }

  /** One entry; None means the stream is not bracketed.  next is the number of
      runners created before. */
  function Read(r: Reader, next: nat, entry: Entry): Option<Reader> {
    match entry
    case StatusGiven(_) => Some(if r.Closing? then Free else r)
    case RunnerClosed(runner) => if r.Running? && r.owner.runner == runner then Some(Closing(r.owner)) else None
    case Emitted(e) =>
      match e.kind
      case Rejected(_) => Some(if r.Closing? then Free else r)
      case Accepted => if r.Running? then None else Some(Running(Owner(e.session, e.request, e.sink, next)))
      case Feedback => if r.Running? && About(e, r.owner) then Some(r) else None
      case Result(_, _, _, _) => if r.Closing? && About(e, r.owner) then Some(Free) else None
  }

  function Acceptances(trace: seq<Entry>): nat {
    if trace == [] then 0
    else
      var last := trace[|trace| - 1];
      Acceptances(trace[..|trace| - 1]) + if last.Emitted? && last.event.kind.Accepted? then 1 else 0
  }

  function ReadAll(trace: seq<Entry>): Option<Reader> {
    if trace == [] then Some(Free)
    else
      var before := trace[..|trace| - 1];
      if ReadAll(before).None? then None else Read(ReadAll(before).value, Acceptances(before), trace[|trace| - 1])
  }

  /** The number of events so far. */
  function Numbered(trace: seq<Entry>): nat {
    if trace == [] then 0
    else Numbered(trace[..|trace| - 1]) + if trace[|trace| - 1].RunnerClosed? then 0 else 1
  }

  function Closures(trace: seq<Entry>): nat {
    if trace == [] then 0
    else Closures(trace[..|trace| - 1]) + if trace[|trace| - 1].RunnerClosed? then 1 else 0
  }

  /** Event numbers count up from zero without a gap. */
  ghost predicate Contiguous(trace: seq<Entry>) {
    forall i | 0 <= i < |trace| ::
      && (trace[i].Emitted? ==> trace[i].event.number == Numbered(trace[..i]))
      && (trace[i].StatusGiven? ==> trace[i].number == Numbered(trace[..i]))
  }

  /** Within a session, accepted request numbers strictly increase. */
  predicate IncreasingPerSession(requests: seq<Identity>) {
    forall i, j | 0 <= i < j < |requests| && requests[i].session == requests[j].session ::
      requests[i].number < requests[j].number
  }

  // ---------- the invariant ----------

  predicate KnownTo(r: Reader, active: Option<Active>) {
    if active.None? then !r.Running?
    else
      var a := active.value;
      r == Running(Owner(a.session, a.request, a.sink, a.runner))
  }

  ghost predicate Ok(s: State) {
    && ReadAll(s.trace).Some? && KnownTo(ReadAll(s.trace).value, s.active)
    && s.runners == Acceptances(s.trace) == Closures(s.trace) + (if s.active.Some? then 1 else 0)
    && Contiguous(s.trace) && s.eventSequence == Numbered(s.trace)
    && IncreasingPerSession(s.requests)
    && (forall i | 0 <= i < |s.requests| ::
          s.requests[i].session in s.lastNumbers && s.requests[i].number <= s.lastNumbers[s.requests[i].session])
  }

  /** One more entry of the history. */
  lemma OneMore(trace: seq<Entry>, entry: Entry)
    ensures ReadAll(trace + [entry]) ==
            if ReadAll(trace).None? then None else Read(ReadAll(trace).value, Acceptances(trace), entry)
    ensures Acceptances(trace + [entry]) ==
            Acceptances(trace) + if entry.Emitted? && entry.event.kind.Accepted? then 1 else 0
    ensures Numbered(trace + [entry]) == Numbered(trace) + if entry.RunnerClosed? then 0 else 1
    ensures Closures(trace + [entry]) == Closures(trace) + if entry.RunnerClosed? then 1 else 0
  {}

  lemma StaysContiguous(trace: seq<Entry>, entry: Entry)
    requires Contiguous(trace)
    requires entry.Emitted? ==> entry.event.number == Numbered(trace)
    requires entry.StatusGiven? ==> entry.number == Numbered(trace)
    ensures Contiguous(trace + [entry])
  {
    var more := trace + [entry];
    forall i | 0 <= i < |more|
      ensures (more[i].Emitted? ==> more[i].event.number == Numbered(more[..i])) &&
              (more[i].StatusGiven? ==> more[i].number == Numbered(more[..i]))
    {
      assert more[..i] == if i < |trace| then trace[..i] else trace;
    }
  }

  /** An event that fits what a reader knows keeps the invariant. */
  lemma EmitKeeps(s: State, t: State, sink: nat, kind: EventKind, session: string, request: string)
    requires Ok(s) && t == s.(active := t.active, runners := t.runners)
    requires var e := Event(s.eventSequence, sink, kind, session, request);
      var r := Read(ReadAll(s.trace).value, Acceptances(s.trace), Emitted(e));
      r.Some? && KnownTo(r.value, t.active)
    requires t.runners == s.runners + (if kind.Accepted? then 1 else 0)
    requires t.active.Some? == (s.active.Some? || kind.Accepted?)
    ensures Ok(Emit(t, sink, kind, session, request).state)
  {
    var entry := Emitted(Event(s.eventSequence, sink, kind, session, request));
    OneMore(s.trace, entry);
    StaysContiguous(s.trace, entry);
  }

  lemma RejectKeeps(s: State, id: Identity, sink: nat, reason: string)
    requires Ok(s)
    ensures Ok(Reject(s, id, sink, reason).state)
  {
    EmitKeeps(s, s, sink, Rejected(reason), id.session, id.request);
  }

  lemma NotedKeeps(s: State, id: Identity)
    requires Ok(s) && InOrder(s, id)
    ensures Ok(Noted(s, id))
  {}

  lemma FinishKeeps(s: State, kind: EventKind, emit: bool)
    requires Ok(s) && s.active.Some? && kind.Result?
    ensures Ok(Finish(s, kind, emit).state) && Finish(s, kind, emit).state.active.None?
  {
    var a := s.active.value;
    var closed := s.(active := None, trace := s.trace + [RunnerClosed(a.runner)]);
    OneMore(s.trace, RunnerClosed(a.runner));
    StaysContiguous(s.trace, RunnerClosed(a.runner));
    if emit {
      EmitKeeps(closed, closed, a.sink, kind, a.session, a.request);
    }
  }

  lemma StartKeeps(cfg: Config, s: State, r: Request, sink: nat, e: Env)
    requires Ok(s) && (r.StartFollow? || r.StartFixed?)
    ensures Ok(StartStep(cfg, s, r, sink, e).state)
  {
    var refused := Admission(cfg, s, r.id, r.fieldsOk, e);
    if r.fieldsOk && InOrder(s, r.id) {
      NotedKeeps(s, r.id);
    }
    var noted := if r.fieldsOk && InOrder(s, r.id) then Noted(s, r.id) else s;
    if refused.Some? {
      RejectKeeps(noted, r.id, sink, refused.value);
    } else {
      RejectKeeps(noted, r.id, sink, "INVALID_TRAJECTORY");
      if r.StartFixed? && FixedRefusal(r).Some? { RejectKeeps(noted, r.id, sink, FixedRefusal(r).value); }
      var behavior := if r.StartFixed? && r.behavior.Some? then r.behavior.value else Follow;
      BeginKeeps(noted, behavior, r.id, sink);
    }
  }

  lemma BeginKeeps(s: State, behavior: Behavior, id: Identity, sink: nat)
    requires Ok(s) && s.active.None?
    ensures Ok(Begin(s, behavior, id, sink).state)
  {
    var t := s.(active := Some(Active(behavior, id.session, id.request, id.number, sink, s.runners)), runners := s.runners + 1);
    EmitKeeps(s, t, sink, Accepted, id.session, id.request);
  }

  lemma CancelKeeps(s: State, r: Request, sink: Option<nat>, e: Env)
    requires Ok(s) && (r.CancelFollow? || r.CancelFixed?)
    ensures Ok(CancelStep(s, r, sink, e).state)
  {
    if sink.Some? || s.active.Some? {
      var to := if sink.Some? then sink.value else s.active.value.sink;
      if !r.fieldsOk {
        RejectKeeps(s, r.id, to, "BAD_REQUEST");
      } else if !InOrder(s, r.id) {
        RejectKeeps(s, r.id, to, "OUT_OF_ORDER");
      } else {
        NotedKeeps(s, r.id);
        var refused := CancelRefusal(Noted(s, r.id), r, sink);
        if refused.Some? {
          RejectKeeps(Noted(s, r.id), r.id, to, refused.value);
        } else {
          FinishKeeps(Noted(s, r.id), Result(false, true, "CANCELLED", e.closeOk), true);
        }
      }
    }
  }

  lemma ObserveKeeps(s: State, safety: Option<Safety>, step: RunnerStep, e: Env)
    requires Ok(s)
    ensures Ok(ObserveStep(s, safety, step, e).state)
  {
    var noted := if safety.Some? then s.(safety := Some(safety.value.(at := e.now))) else s;
    if noted.active.Some? {
      var a := noted.active.value;
      if RlGate(e.authorization).Some? {
        FinishKeeps(noted, Failure("MOTION_GATE_CLOSED", e), true);
      } else if Verdict(a.behavior, step, e).Some? {
        FinishKeeps(noted, Verdict(a.behavior, step, e).value, true);
      } else {
        EmitKeeps(noted, noted, a.sink, Feedback, a.session, a.request);
      }
    }
  }

  lemma ApplyKeeps(cfg: Config, s: State, op: Op)
    requires Ok(s)
    ensures Ok(Apply(cfg, s, op).state)
  {
    match op
    case Handle(r, sink, e) => HandleKeeps(cfg, s, r, sink, e);
    case CancelDirectly(r, sink, e) => if r.CancelFollow? || r.CancelFixed? { CancelKeeps(s, r, sink, e); }
    case Observe(safety, step, e) => ObserveKeeps(s, safety, step, e);
    case Status => StatusKeeps(cfg, s);
    case _ => EndKeeps(cfg, s, op);
  }

  lemma HandleKeeps(cfg: Config, s: State, r: Request, sink: nat, e: Env)
    requires Ok(s)
    ensures Ok(Apply(cfg, s, Handle(r, sink, e)).state)
  {
    if r.StartFollow? || r.StartFixed? {
      StartKeeps(cfg, s, r, sink, e);
    } else if r.CancelFollow? || r.CancelFixed? {
      CancelKeeps(s, r, Some(sink), e);
    } else {
      RejectKeeps(s, r.id, sink, "BAD_REQUEST");
    }
  }

  lemma StatusKeeps(cfg: Config, s: State)
    requires Ok(s)
    ensures Ok(Apply(cfg, s, Status).state)
  {
    OneMore(s.trace, StatusGiven(s.eventSequence));
    StaysContiguous(s.trace, StatusGiven(s.eventSequence));
  }

  lemma EndKeeps(cfg: Config, s: State, op: Op)
    requires Ok(s) && (op.Watchdog? || op.Close? || op.Disconnect?)
    ensures Ok(Apply(cfg, s, op).state)
  {
    match op
    case Watchdog(e) => if s.active.Some? { FinishKeeps(s, Failure("MOTION_GATE_CLOSED", e), true); }
    case Close(emit, e) => if s.active.Some? { FinishKeeps(s, Failure("CONNECTION_CLOSED", e), emit); }
    case Disconnect(sink, e) => if s.active.Some? { FinishKeeps(s, Failure("CONNECTION_CLOSED", e), false); }
  }

  /** The two ways to end a behavior without a result. */
  predicate Silent(op: Op) { op.Disconnect? || (op.Close? && !op.emit) }

  /** Whatever ends a behavior closes its runner once and then sends exactly one
      result, to its own connection, unless it was closed silently. */
  lemma EndedBehaviorSendsOneResult(cfg: Config, s: State, op: Op)
    requires s.active.Some? && Apply(cfg, s, op).state.active.None?
    ensures var a := s.active.value; var step := Apply(cfg, s, op); var n := |s.trace|;
      && step.emitted == !Silent(op)
      && step.state.trace[..n] == s.trace && |step.state.trace| == n + (if Silent(op) then 1 else 2)
      && step.state.trace[n] == RunnerClosed(a.runner)
      && (!Silent(op) ==>
            && step.state.trace[n + 1].Emitted? && step.state.trace[n + 1].event.kind.Result?
            && About(step.state.trace[n + 1].event, Owner(a.session, a.request, a.sink, a.runner)))
  {}

  // ---------- runs ----------

  lemma {:induction false} ExecKeeps(cfg: Config, s: State, call: Call)
    requires Ok(s)
    ensures Ok(Exec(cfg, s, call))
    decreases call, |call.reactions| + 2
  {
    ApplyKeeps(cfg, s, call.op);
    if Apply(cfg, s, call.op).emitted { ReactKeeps(cfg, Apply(cfg, s, call.op).state, call, 0); }
  }

  lemma {:induction false} ReactKeeps(cfg: Config, s: State, call: Call, k: nat)
    requires Ok(s) && k <= |call.reactions|
    ensures Ok(React(cfg, s, call, k))
    decreases call, |call.reactions| - k
  {
    if k < |call.reactions| {
      ExecKeeps(cfg, s, call.reactions[k]);
      ReactKeeps(cfg, Exec(cfg, s, call.reactions[k]), call, k + 1);
    }
  }

  /** Over every run, with any reactions to any event: at most one behavior is
      active; each accepted one yields feedback and at most one result, right
      after its own runner is closed, and each runner but an active one has been
      closed; event numbers have no gap; and accepted request numbers strictly
      increase per session. */
  lemma {:induction false} TraceIsBracketed(cfg: Config, calls: seq<Call>)
    ensures var s := ExecAll(cfg, calls);
      && ReadAll(s.trace).Some? && (ReadAll(s.trace).value.Running? <==> s.active.Some?)
      && Acceptances(s.trace) == Closures(s.trace) + (if s.active.Some? then 1 else 0)
      && Contiguous(s.trace) && IncreasingPerSession(s.requests)
      && Ok(s)
  {
    if calls != [] {
      TraceIsBracketed(cfg, calls[..|calls| - 1]);
      ExecKeeps(cfg, ExecAll(cfg, calls[..|calls| - 1]), calls[|calls| - 1]);
    }
  }

  /** What a bracketed history means for one runner: it is closed at most once. */
  lemma {:induction false} RunnerClosedOnce(trace: seq<Entry>, i: nat, j: nat)
    requires ReadAll(trace).Some? && i < j < |trace| && trace[i].RunnerClosed? && trace[j].RunnerClosed?
    ensures trace[i].runner < trace[j].runner
  {
    RunnerIsCurrent(trace, i);
    RunnerIsCurrent(trace, j);
    AcceptancesBetween(trace, i, j);
  }

  lemma {:induction false} PrefixReads(trace: seq<Entry>, i: nat)
    requires ReadAll(trace).Some? && i <= |trace|
    ensures ReadAll(trace[..i]).Some?
  {
    if i < |trace| {
      PrefixReads(trace[..|trace| - 1], i);
      assert trace[..|trace| - 1][..i] == trace[..i];
    } else {
      assert trace[..i] == trace;
    }
  }

  /** The runner a reader knows of is the one created last. */
  lemma {:induction false} OwnerIsLatest(trace: seq<Entry>)
    requires ReadAll(trace).Some? && !ReadAll(trace).value.Free?
    ensures ReadAll(trace).value.owner.runner + 1 == Acceptances(trace)
  {
    var before := trace[..|trace| - 1];
    if !ReadAll(before).value.Free? { OwnerIsLatest(before); }
  }

  lemma RunnerIsCurrent(trace: seq<Entry>, i: nat)
    requires ReadAll(trace).Some? && i < |trace| && trace[i].RunnerClosed?
    ensures trace[i].runner + 1 == Acceptances(trace[..i])
    ensures ReadAll(trace[..i + 1]).Some? && ReadAll(trace[..i + 1]).value.Closing?
  {
    PrefixReads(trace, i + 1);
    PrefixReads(trace, i);
    assert trace[..i] + [trace[i]] == trace[..i + 1];
    ClosedIsCurrent(trace[..i], trace[i]);
  }

  lemma ClosedIsCurrent(before: seq<Entry>, entry: Entry)
    requires ReadAll(before).Some? && ReadAll(before + [entry]).Some? && entry.RunnerClosed?
    ensures entry.runner + 1 == Acceptances(before) && ReadAll(before + [entry]).value.Closing?
  {
    OneMore(before, entry);
    OwnerIsLatest(before);
  }

  /** Between two closed runners another behavior was accepted. */
  lemma {:induction false} AcceptancesBetween(trace: seq<Entry>, i: nat, j: nat)
    requires ReadAll(trace).Some? && i < j < |trace| && trace[i].RunnerClosed? && trace[j].RunnerClosed?
    ensures Acceptances(trace[..i]) < Acceptances(trace[..j])
  {
    RunnerIsCurrent(trace, i);
    RunnerIsCurrent(trace, j);
    PrefixReads(trace, j);
    assert trace[..j + 1][..j] == trace[..j];
    PrefixReads(trace, j + 1);
    AcceptancesGrow(trace, i + 1, j);
    assert trace[..i + 1][..i] == trace[..i];
    if Acceptances(trace[..j]) == Acceptances(trace[..i + 1]) {
      NotRunningWithoutAccept(trace, i + 1, j);
    }
  }

  lemma {:induction false} AcceptancesGrow(trace: seq<Entry>, i: nat, j: nat)
    requires i <= j <= |trace|
    ensures Acceptances(trace[..i]) <= Acceptances(trace[..j])
    decreases j
  {
    if i < j {
      AcceptancesGrow(trace, i, j - 1);
      assert trace[..j][..j - 1] == trace[..j - 1];
    }
  }

  /** Without an acceptance nothing starts running. */
  lemma {:induction false} NotRunningWithoutAccept(trace: seq<Entry>, i: nat, j: nat)
    requires ReadAll(trace).Some? && i <= j <= |trace|
    requires ReadAll(trace[..i]).Some? && !ReadAll(trace[..i]).value.Running?
    requires Acceptances(trace[..j]) == Acceptances(trace[..i])
    ensures ReadAll(trace[..j]).Some? && !ReadAll(trace[..j]).value.Running?
    decreases j
  {
    if i < j {
      AcceptancesGrow(trace, i, j - 1);
      AcceptancesGrow(trace, j - 1, j);
      NotRunningWithoutAccept(trace, i, j - 1);
      PrefixReads(trace, j);
      assert trace[..j][..j - 1] == trace[..j - 1];
    }
  }
}
