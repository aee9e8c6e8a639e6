/** The ACT data link end to end (edge_runtime/resident_data_link.py):
    latest-only framed sending of published states, against any partial sends
    and receives and any interleaving with the publisher's thread. */
module DataLink {
  import opened Wrappers
  import opened Arithmetic
  import opened Framing

  /** What the publisher has published, and one connection's send side.  done,
      part and sent are the history of the connection: the bytes of the frames
      handed over whole, those of the frame begun, and the whole frames' revisions. */
  datatype Sender = Sender(
    states: seq<Bytes>,
    outbound: Bytes,
    offset: nat,
    outboundRevision: nat,
    lastSentRevision: nat,
    done: Bytes,
    part: Bytes,
    sent: seq<nat>)

  /** A connection accepted after some states were published. */
  function Connected(states: seq<Bytes>): Sender { Sender(states, [], 0, 0, 0, [], [], []) }

  /** Every byte handed to the socket. */
  function Wire(s: Sender): Bytes { s.done + s.part }

  predicate StatesOk(states: seq<Bytes>) { forall i | 0 <= i < |states| :: Framable(states[i]) }

  /** _next_state_frame: the newest state if it is newer than the given revision. */
  function NextFrame(s: Sender, after: nat): Option<Bytes> {
    if s.states == [] || |s.states| <= after then None else Some(Frame(s.states[|s.states| - 1]))
  }

  /** The top of the loop in _serve_connection: an idle connection takes the
      newest unsent state, and a frame not yet begun is replaced by a newer one. */
  function Refresh(s: Sender): Sender {
    if s.outbound == [] then
      var next := NextFrame(s, s.lastSentRevision);
      if next.None? then s.(offset := 0, outboundRevision := s.lastSentRevision)
      else s.(outbound := next.value, offset := 0, outboundRevision := |s.states|)
    else if s.offset == 0 then
      var next := NextFrame(s, s.outboundRevision);
      if next.None? then s else s.(outbound := next.value, outboundRevision := |s.states|)
    else s
  }

  /** connection.send took the next n bytes, or as many as are left. */
  function Sent(s: Sender, n: nat): Sender
    requires s.offset <= |s.outbound|
  {
    var end := IntMin(s.offset + n, |s.outbound|);
    var part := s.part + s.outbound[s.offset..end];
    if end == |s.outbound| then
      s.(lastSentRevision := s.outboundRevision, outbound := [], offset := 0,
         done := s.done + part, part := [], sent := s.sent + [s.outboundRevision])
    else s.(offset := end, part := part)
  }

  function Published(s: Sender, payloads: seq<Bytes>): Sender {
    s.(states := s.states + payloads)
  }

  // ---------- what the wire carries ----------

  predicate Increasing(revisions: seq<nat>, limit: nat) {
    && (forall i | 0 <= i < |revisions| :: 1 <= revisions[i] <= limit)
    && (forall i, j | 0 <= i < j < |revisions| :: revisions[i] < revisions[j])
  }

  /** The payloads of some revisions. */
  function Payloads(states: seq<Bytes>, revisions: seq<nat>): (ps: seq<Bytes>)
    requires Increasing(revisions, |states|)
    ensures |ps| == |revisions| && forall i | 0 <= i < |revisions| :: ps[i] == states[revisions[i] - 1]
  {
    seq(|revisions|, i requires 0 <= i < |revisions| => states[revisions[i] - 1])
  }

  /** The frame being sent is that of a published state newer than all before it. */
  predicate FrameOk(s: Sender) {
    && StatesOk(s.states)
    && s.offset <= |s.outbound| && s.part == s.outbound[..s.offset]
    && (s.outbound != [] ==>
          && s.offset < |s.outbound| && s.lastSentRevision < s.outboundRevision <= |s.states|
          && s.outbound == Frame(s.states[s.outboundRevision - 1]))
  }

  /** What was sent whole are the frames of published states with strictly
      increasing revisions. */
  predicate HistoryOk(s: Sender) {
    && Increasing(s.sent, |s.states|)
    && s.lastSentRevision == (if s.sent == [] then 0 else s.sent[|s.sent| - 1])
    && s.done == Frames(Payloads(s.states, s.sent))
  }

  predicate SenderOk(s: Sender) { FrameOk(s) && HistoryOk(s) }

  lemma PublishKeeps(s: Sender, payloads: seq<Bytes>)
    requires SenderOk(s) && StatesOk(payloads)
    ensures SenderOk(Published(s, payloads))
  {
    PayloadsStay(s.states, payloads, s.sent);
  }

  lemma PayloadsStay(states: seq<Bytes>, more: seq<Bytes>, revisions: seq<nat>)
    requires Increasing(revisions, |states|)
    ensures Increasing(revisions, |states + more|) && Payloads(states + more, revisions) == Payloads(states, revisions)
  {}

  lemma RefreshKeeps(s: Sender)
    requires SenderOk(s)
    ensures SenderOk(Refresh(s)) && Wire(Refresh(s)) == Wire(s)
  {
    assert s.outbound == [] ==> s.part == [];
  }

  /** What a connection begins to send after a refresh is the newest state. */
  lemma FreshestIsSent(s: Sender)
    requires SenderOk(s) && Refresh(s).offset == 0
    ensures var t := Refresh(s);
      if t.outbound == [] then t.lastSentRevision == |t.states|
      else t.outboundRevision == |t.states| && t.outbound == Frame(t.states[|t.states| - 1])
  {}

  lemma SentKeeps(s: Sender, n: nat)
    requires SenderOk(s) && s.outbound != []
    ensures SenderOk(Sent(s, n))
  {
    var end := IntMin(s.offset + n, |s.outbound|);
    assert s.outbound[..s.offset] + s.outbound[s.offset..end] == s.outbound[..end];
    if end == |s.outbound| {
      assert s.outbound[..end] == s.outbound;
      WholeFrameSent(s, Sent(s, n));
    }
  }

  lemma WholeFrameSent(s: Sender, t: Sender)
    requires SenderOk(s) && s.outbound != []
    requires t.states == s.states && t.sent == s.sent + [s.outboundRevision] && t.done == s.done + s.outbound
    requires t.lastSentRevision == s.outboundRevision
    ensures HistoryOk(t)
  {
    PayloadsExtend(s.states, s.sent, s.outboundRevision);
    FramesOneMore(Payloads(s.states, s.sent), s.states[s.outboundRevision - 1]);
  }

  lemma PayloadsExtend(states: seq<Bytes>, revisions: seq<nat>, next: nat)
    requires Increasing(revisions, |states|) && 1 <= next <= |states|
    requires revisions != [] ==> revisions[|revisions| - 1] < next
    ensures Increasing(revisions + [next], |states|)
    ensures Payloads(states, revisions + [next]) == Payloads(states, revisions) + [states[next - 1]]
  {}

  // ---------- one connection ----------

  /** What one turn of the serving loop meets: states published before and after
      it looked for a frame, a chunk received (empty at end of stream), and the
      number of bytes the socket accepted. */
  datatype Iteration = Iteration(before: seq<Bytes>, during: seq<Bytes>, chunk: Option<Bytes>, accepted: Option<int>)

  predicate IterationOk(it: Iteration) { StatesOk(it.before) && StatesOk(it.during) }

  datatype Connection = Connection(sender: Sender, receiver: Receiver, closed: bool)

  predicate ConnectionOk(c: Connection) { SenderOk(c.sender) && ReceiverOk(c.receiver) }

  function AfterReceive(takes: Acceptance, c: Connection, chunk: Option<Bytes>): (d: Connection)
    requires ReceiverOk(c.receiver)
    ensures ReceiverOk(d.receiver) && d.sender == c.sender
  {
    if chunk.None? then c
    else if chunk.value == [] then c.(closed := true)
    else
      var r := Feed(takes, c.receiver, chunk.value);
      c.(receiver := r, closed := !r.Open?)
  }

  function AfterSend(c: Connection, accepted: Option<int>): (d: Connection)
    requires SenderOk(c.sender)
    ensures SenderOk(d.sender) && d.receiver == c.receiver
  {
    if c.closed || c.sender.outbound == [] || accepted.None? then c
    else if accepted.value <= 0 then c.(closed := true)
    else
      SentKeeps(c.sender, accepted.value);
      c.(sender := Sent(c.sender, accepted.value))
  }

  function Offered(s: Sender, it: Iteration): Sender { Published(Refresh(Published(s, it.before)), it.during) }

  lemma OfferedKeeps(s: Sender, it: Iteration)
    requires SenderOk(s) && IterationOk(it)
    ensures SenderOk(Offered(s, it)) && Wire(Offered(s, it)) == Wire(s)
  {
    PublishKeeps(s, it.before);
    RefreshKeeps(Published(s, it.before));
    PublishKeeps(Refresh(Published(s, it.before)), it.during);
  }

  /** One turn of _serve_connection. */
  function Turned(takes: Acceptance, c: Connection, it: Iteration): (d: Connection)
    requires ConnectionOk(c) && IterationOk(it)
    ensures ConnectionOk(d)
  {
    if c.closed then c
    else
      OfferedKeeps(c.sender, it);
      AfterSend(AfterReceive(takes, c.(sender := Offered(c.sender, it)), it.chunk), it.accepted)
  }

  function Served(takes: Acceptance, states: seq<Bytes>, its: seq<Iteration>): (c: Connection)
    requires StatesOk(states) && forall i | 0 <= i < |its| :: IterationOk(its[i])
    ensures ConnectionOk(c)
  {
    if its == [] then Connection(Connected(states), FRESH_RECEIVER, false)
    else Turned(takes, Served(takes, states, its[..|its| - 1]), its[|its| - 1])
  }

  /** _serve_connection, the loop. */
  method ServeConnection(takes: Acceptance, states: seq<Bytes>, its: seq<Iteration>) returns (c: Connection)
    requires StatesOk(states) && forall i | 0 <= i < |its| :: IterationOk(its[i])
    ensures c == Served(takes, states, its)
  {
    c := Connection(Connected(states), FRESH_RECEIVER, false);
    var k := 0;
    while k < |its|
      invariant k <= |its|
      invariant ConnectionOk(c) && c == Served(takes, states, its[..k])
    {
      assert its[..k + 1][..k] == its[..k];
      c := ServeOnce(takes, c, its[k]);
      k := k + 1;
    }
    assert its[..k] == its;
  }

  method ServeOnce(takes: Acceptance, c: Connection, it: Iteration) returns (d: Connection)
    requires ConnectionOk(c) && IterationOk(it)
    ensures d == Turned(takes, c, it)
  {
    if c.closed { return c; }
    OfferedKeeps(c.sender, it);
    var sender := TakeFrame(Published(c.sender, it.before));
    var writable := sender.outbound != [];
    sender := Published(sender, it.during);
    d := Connection(sender, c.receiver, false);
    if it.chunk.Some? {
      if it.chunk.value == [] { return d.(closed := true); }
      d := d.(receiver := Feed(takes, d.receiver, it.chunk.value));
      if !d.receiver.Open? { return d.(closed := true); }
    }
    if writable && it.accepted.Some? {
      if it.accepted.value <= 0 { return d.(closed := true); }
      d := d.(sender := Sent(sender, it.accepted.value));
    }
  }

  method TakeFrame(s: Sender) returns (t: Sender)
    ensures t == Refresh(s)
  {
    t := s;
    if t.outbound == [] {
      var next := NextFrame(t, t.lastSentRevision);
      if next.None? {
        t := t.(outboundRevision := t.lastSentRevision);
      } else {
        t := t.(outbound := next.value, outboundRevision := |t.states|);
      }
      t := t.(offset := 0);
    } else if t.offset == 0 {
      var next := NextFrame(t, t.outboundRevision);
      if next.Some? {
        t := t.(outbound := next.value, outboundRevision := |t.states|);
      }
    }
  }

  // ---------- end to end ----------

  /** For any partial sends and any publishing: a reader that parses the same
      framing and takes every published state, however its own reads cut the
      stream, has received exactly published states of strictly increasing
      revisions, in order. */
  lemma ReaderGetsIncreasingStates(takes: Acceptance, states: seq<Bytes>, its: seq<Iteration>,
                                   reader: Acceptance, chunks: seq<Bytes>)
    requires StatesOk(states) && forall i | 0 <= i < |its| :: IterationOk(its[i])
    requires forall i: nat, p | p in Served(takes, states, its).sender.states :: reader(i, p)
    requires Concat(chunks) == Wire(Served(takes, states, its).sender)
    ensures var s := Served(takes, states, its).sender;
      var r := FeedAll(reader, FRESH_RECEIVER, chunks);
      && Increasing(s.sent, |s.states|)
      && r.Open? && r.delivered == Payloads(s.states, s.sent)
  {
    ChunkingDoesNotMatter(reader, chunks);
    WireParses(Served(takes, states, its).sender, reader);
  }

  lemma WireParses(s: Sender, reader: Acceptance)
    requires SenderOk(s) && forall i: nat, p | p in s.states :: reader(i, p)
    ensures var r := Feed(reader, FRESH_RECEIVER, Wire(s)); r.Open? && r.delivered == Payloads(s.states, s.sent)
  {
    var ps := Payloads(s.states, s.sent);
    assert TakesAll(reader, ps);
    if s.outbound == [] {
      assert Wire(s) == Frames(ps);
      ParsingInvertsFraming(reader, ps);
    } else {
      ParsingStopsAtPartialFrame(reader, ps, s.states[s.outboundRevision - 1], s.offset);
    }
  }
}
