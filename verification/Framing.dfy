/** The length-prefixed frames of the ACT data link and their incremental parser
    (edge_runtime/resident_data_link.py, _consume_inbound_frames). */
module Framing {
  import opened Wrappers

  type byte = n: nat | n < 256
  type Bytes = seq<byte>

  const HEADER_BYTES := 4
  const MAX_FRAME_BYTES := 4096

  /** n.to_bytes(4, "big"); no payload is long enough to overflow it. */
  function Header(n: nat): (h: Bytes)
    ensures |h| == HEADER_BYTES
  {
    [(n / 0x100_0000) % 256, (n / 0x1_0000) % 256, (n / 256) % 256, n % 256]
  }

  /** int.from_bytes(header, "big") */
  function Length(h: Bytes): nat
    requires |h| == HEADER_BYTES
  {
    (((h[0] as int) * 256 + h[1] as int) * 256 + h[2] as int) * 256 + h[3] as int
  }

  lemma LengthInvertsHeader(n: nat)
    requires n <= MAX_FRAME_BYTES
    ensures Length(Header(n)) == n
  {}

  lemma HeaderInvertsLength(h: Bytes)
    requires |h| == HEADER_BYTES && Length(h) <= MAX_FRAME_BYTES
    ensures Header(Length(h)) == h
  {
    var n := Length(h);
    assert h[0] == 0 && h[1] == 0;
    assert n == (h[2] as int) * 256 + h[3] as int;
    assert n / 256 == h[2] && n % 256 == h[3];
  }

  predicate Framable(payload: Bytes) { 0 < |payload| <= MAX_FRAME_BYTES }

  function Frame(payload: Bytes): Bytes {
    Header(|payload|) + payload
  }

  function Frames(payloads: seq<Bytes>): Bytes {
    if payloads == [] then [] else Frames(payloads[..|payloads| - 1]) + Frame(payloads[|payloads| - 1])
  }

  /** Whether decoding and the callback accept the i-th candidate. */
  type Acceptance = (nat, Bytes) -> bool

  /** One connection's receive side, with the candidates delivered so far. */
  datatype Receiver =
    | Open(delivered: seq<Bytes>, buffer: Bytes, expected: Option<nat>)
    | BadLength(delivered: seq<Bytes>)
    | BadCandidate(delivered: seq<Bytes>)

  const FRESH_RECEIVER := Open([], [], None)

  predicate ReceiverOk(r: Receiver) {
    r.Open? && r.expected.Some? ==> 0 < r.expected.value <= MAX_FRAME_BYTES
  }

  /** One turn of the loop in _consume_inbound_frames; an unchanged receiver
      waits for more bytes. */
  function Turn(takes: Acceptance, r: Receiver): (t: Receiver)
    requires ReceiverOk(r)
    ensures ReceiverOk(t)
  {
    if !r.Open? then r
    else if r.expected.None? then
      if |r.buffer| < HEADER_BYTES then r
      else
        var n := Length(r.buffer[..HEADER_BYTES]);
        if !(0 < n <= MAX_FRAME_BYTES) then BadLength(r.delivered)
        else Open(r.delivered, r.buffer[HEADER_BYTES..], Some(n))
    else if |r.buffer| < r.expected.value then r
    else
      var payload := r.buffer[..r.expected.value];
      if takes(|r.delivered|, payload) then Open(r.delivered + [payload], r.buffer[r.expected.value..], None)
      else BadCandidate(r.delivered)
  }

  predicate Waiting(r: Receiver) {
    r.Open? ==> |r.buffer| < if r.expected.None? then HEADER_BYTES else r.expected.value
  }

  function Work(r: Receiver): nat { if r.Open? then |r.buffer| + 1 else 0 }

  function Drain(takes: Acceptance, r: Receiver): (t: Receiver)
    requires ReceiverOk(r)
    ensures ReceiverOk(t) && Waiting(t)
    decreases Work(r)
  {
    if Waiting(r) then r else Drain(takes, Turn(takes, r))
  }

  function Received(r: Receiver, chunk: Bytes): Receiver {
    if r.Open? then r.(buffer := r.buffer + chunk) else r
  }

  /** One recv: the chunk is appended and every complete frame consumed. */
  function Feed(takes: Acceptance, r: Receiver, chunk: Bytes): (t: Receiver)
    requires ReceiverOk(r)
    ensures ReceiverOk(t) && Waiting(t)
  {
    Drain(takes, Received(r, chunk))
  }

  function FeedAll(takes: Acceptance, r: Receiver, chunks: seq<Bytes>): (t: Receiver)
    requires ReceiverOk(r)
    ensures ReceiverOk(t)
  {
    if chunks == [] then r else Feed(takes, FeedAll(takes, r, chunks[..|chunks| - 1]), chunks[|chunks| - 1])
  }

  function Concat(chunks: seq<Bytes>): Bytes {
    if chunks == [] then [] else Concat(chunks[..|chunks| - 1]) + chunks[|chunks| - 1]
  }

  // ---------- chunking does not matter ----------

  lemma TurnWithMore(takes: Acceptance, r: Receiver, more: Bytes)
    requires ReceiverOk(r) && !Waiting(r)
    ensures !Waiting(Received(r, more)) && Turn(takes, Received(r, more)) == Received(Turn(takes, r), more)
  {
    var all := r.buffer + more;
    if r.expected.None? {
      assert all[..HEADER_BYTES] == r.buffer[..HEADER_BYTES];
      assert all[HEADER_BYTES..] == r.buffer[HEADER_BYTES..] + more;
    } else {
      assert all[..r.expected.value] == r.buffer[..r.expected.value];
      assert all[r.expected.value..] == r.buffer[r.expected.value..] + more;
    }
  }

  /** Draining before more bytes arrive changes nothing. */
  lemma {:induction false} DrainThenFeed(takes: Acceptance, r: Receiver, more: Bytes)
    requires ReceiverOk(r)
    ensures Feed(takes, Drain(takes, r), more) == Drain(takes, Received(r, more))
    decreases Work(r)
  {
    if !Waiting(r) {
      TurnWithMore(takes, r, more);
      DrainThenFeed(takes, Turn(takes, r), more);
    }
  }

  /** Any two ways to cut the same bytes into chunks end in the same receiver. */
  lemma {:induction false} ChunkingDoesNotMatter(takes: Acceptance, chunks: seq<Bytes>)
    ensures FeedAll(takes, FRESH_RECEIVER, chunks) == Feed(takes, FRESH_RECEIVER, Concat(chunks))
  {
    if chunks == [] {
      assert [] + [] == Concat(chunks);
    } else {
      var before, last := chunks[..|chunks| - 1], chunks[|chunks| - 1];
      ChunkingDoesNotMatter(takes, before);
      OneMoreChunk(takes, Concat(before), last);
    }
  }

  lemma OneMoreChunk(takes: Acceptance, bytes: Bytes, last: Bytes)
    ensures Feed(takes, Feed(takes, FRESH_RECEIVER, bytes), last) == Feed(takes, FRESH_RECEIVER, bytes + last)
  {
    var whole := Received(FRESH_RECEIVER, bytes);
    DrainThenFeed(takes, whole, last);
    assert whole.buffer + last == FRESH_RECEIVER.buffer + (bytes + last);
    assert Received(whole, last) == Received(FRESH_RECEIVER, bytes + last);
  }

  // ---------- nothing is lost ----------

  /** The bytes taken from the stream but not yet delivered. */
  function InFlight(r: Receiver): Bytes
    requires r.Open? && ReceiverOk(r)
  {
    (if r.expected.Some? then Header(r.expected.value) else []) + r.buffer
  }

  predicate Deliverable(r: Receiver) { forall p | p in r.delivered :: Framable(p) }

  lemma TurnConserves(takes: Acceptance, r: Receiver)
    requires ReceiverOk(r) && Deliverable(r) && r.Open?
    ensures Deliverable(Turn(takes, r))
    ensures Turn(takes, r).Open? ==>
              Frames(Turn(takes, r).delivered) + InFlight(Turn(takes, r)) == Frames(r.delivered) + InFlight(r)
  {
    if !Waiting(r) {
      if r.expected.None? {
        var h := r.buffer[..HEADER_BYTES];
        assert r.buffer == h + r.buffer[HEADER_BYTES..];
        if 0 < Length(h) <= MAX_FRAME_BYTES { HeaderInvertsLength(h); }
      } else {
        var payload := r.buffer[..r.expected.value];
        assert r.buffer == payload + r.buffer[r.expected.value..];
        assert (r.delivered + [payload])[..|r.delivered|] == r.delivered;
      }
    }
  }

  lemma {:induction false} DrainConserves(takes: Acceptance, r: Receiver)
    requires ReceiverOk(r) && Deliverable(r)
    ensures Deliverable(Drain(takes, r))
    ensures r.Open? && Drain(takes, r).Open? ==>
              Frames(Drain(takes, r).delivered) + InFlight(Drain(takes, r)) == Frames(r.delivered) + InFlight(r)
    decreases Work(r)
  {
    if !Waiting(r) {
      TurnConserves(takes, r);
      DrainConserves(takes, Turn(takes, r));
    }
  }

  /** As long as the connection is good, what was received is exactly the frames
      of what was delivered, followed by less than one frame; and fewer than 4096
      bytes are buffered. */
  lemma ParsingConservesBytes(takes: Acceptance, stream: Bytes)
    ensures var r := Feed(takes, FRESH_RECEIVER, stream);
      r.Open? ==> Deliverable(r) && stream == Frames(r.delivered) + InFlight(r) && |r.buffer| < MAX_FRAME_BYTES
  {
    DrainConserves(takes, Received(FRESH_RECEIVER, stream));
    assert [] + ([] + stream) == stream;
  }

  // ---------- parsing inverts framing ----------

  /** A frame that has arrived whole is delivered. */
  lemma FrameIsDelivered(takes: Acceptance, r: Receiver, payload: Bytes)
    requires r.Open? && r.buffer == [] && r.expected.None?
    requires Framable(payload) && takes(|r.delivered|, payload)
    ensures Feed(takes, r, Frame(payload)) == Open(r.delivered + [payload], [], None)
  {
    var start := Received(r, Frame(payload));
    assert start.buffer == Frame(payload);
    assert Frame(payload)[..HEADER_BYTES] == Header(|payload|);
    LengthInvertsHeader(|payload|);
    assert Frame(payload)[HEADER_BYTES..] == payload;
    var body := Turn(takes, start);
    assert body == Open(r.delivered, payload, Some(|payload|));
    assert payload[..|payload|] == payload && payload[|payload|..] == [];
    assert Turn(takes, body) == Open(r.delivered + [payload], [], None);
    assert Drain(takes, body) == Open(r.delivered + [payload], [], None);
  }

  /** Part of a frame waits. */
  lemma PrefixWaits(takes: Acceptance, r: Receiver, payload: Bytes, n: nat)
    requires r.Open? && r.buffer == [] && r.expected.None? && Framable(payload) && n < |Frame(payload)|
    ensures var t := Feed(takes, r, Frame(payload)[..n]); t.Open? && t.delivered == r.delivered
  {
    var part := Frame(payload)[..n];
    var start := Received(r, part);
    assert start.buffer == part;
    if n >= HEADER_BYTES {
      assert part[..HEADER_BYTES] == Header(|payload|);
      LengthInvertsHeader(|payload|);
      var body := Turn(takes, start);
      assert body == Open(r.delivered, part[HEADER_BYTES..], Some(|payload|));
      assert Drain(takes, body) == body;
    }
  }

  predicate TakesAll(takes: Acceptance, payloads: seq<Bytes>) {
    forall i | 0 <= i < |payloads| :: Framable(payloads[i]) && takes(i, payloads[i])
  }

  lemma FramesOneMore(payloads: seq<Bytes>, last: Bytes)
    ensures Frames(payloads + [last]) == Frames(payloads) + Frame(last)
  {}

  /** One more whole frame after some that were all delivered. */
  lemma OneMoreFrame(takes: Acceptance, before: seq<Bytes>, last: Bytes, stream: Bytes)
    requires Feed(takes, FRESH_RECEIVER, stream) == Open(before, [], None)
    requires Framable(last) && takes(|before|, last)
    ensures Feed(takes, FRESH_RECEIVER, stream + Frame(last)) == Open(before + [last], [], None)
  {
    FrameIsDelivered(takes, Open(before, [], None), last);
    DrainThenFeed(takes, Received(FRESH_RECEIVER, stream), Frame(last));
    assert ([] + stream) + Frame(last) == [] + (stream + Frame(last));
  }

  /** Whole frames deliver exactly their payloads, in order. */
  lemma {:induction false} ParsingInvertsFraming(takes: Acceptance, payloads: seq<Bytes>)
    requires TakesAll(takes, payloads)
    ensures Feed(takes, FRESH_RECEIVER, Frames(payloads)) == Open(payloads, [], None)
  {
    if payloads == [] {
      assert Received(FRESH_RECEIVER, []).buffer == [];
    } else {
      var before, last := payloads[..|payloads| - 1], payloads[|payloads| - 1];
      ParsingInvertsFraming(takes, before);
      assert before + [last] == payloads;
      FramesOneMore(before, last);
      OneMoreFrame(takes, before, last, Frames(before));
    }
  }

  /** ... and part of one more frame adds nothing to them. */
  lemma ParsingStopsAtPartialFrame(takes: Acceptance, payloads: seq<Bytes>, next: Bytes, n: nat)
    requires TakesAll(takes, payloads) && Framable(next) && n < |Frame(next)|
    ensures var r := Feed(takes, FRESH_RECEIVER, Frames(payloads) + Frame(next)[..n]);
            r.Open? && r.delivered == payloads
  {
    ParsingInvertsFraming(takes, payloads);
    PartialFrameWaits(takes, payloads, next, n, Frames(payloads));
  }

  lemma PartialFrameWaits(takes: Acceptance, before: seq<Bytes>, next: Bytes, n: nat, stream: Bytes)
    requires Feed(takes, FRESH_RECEIVER, stream) == Open(before, [], None)
    requires Framable(next) && n < |Frame(next)|
    ensures var r := Feed(takes, FRESH_RECEIVER, stream + Frame(next)[..n]); r.Open? && r.delivered == before
  {
    PrefixWaits(takes, Open(before, [], None), next, n);
    DrainThenFeed(takes, Received(FRESH_RECEIVER, stream), Frame(next)[..n]);
    assert ([] + stream) + Frame(next)[..n] == [] + (stream + Frame(next)[..n]);
  }

  // ---------- the loop ----------

  class FrameReceiver {
    var buffer: Bytes
    var expected: Option<nat>
    ghost var delivered: seq<Bytes>
    var count: nat
    var failed: bool
    ghost var state: Receiver

    ghost predicate Valid()
      reads this
    {
      && ReceiverOk(state) && state.delivered == delivered && |delivered| == count && failed == !state.Open?
      && (state.Open? ==> state == Open(delivered, buffer, expected))
    }

    constructor ()
      ensures Valid() && state == FRESH_RECEIVER
    {
      buffer, expected, delivered, count, failed, state := [], None, [], 0, false, FRESH_RECEIVER;
    }

    /** recv, then _consume_inbound_frames on the receive buffer in place. */
    method Receive(takes: Acceptance, chunk: Bytes)
      requires Valid()
      modifies this
      ensures Valid() && state == Feed(takes, old(state), chunk)
    {
      if failed { return; }
      buffer := buffer + chunk;
      state := Received(state, chunk);
      while !failed && |buffer| >= (if expected.None? then HEADER_BYTES else expected.value)
        invariant Valid()
        invariant Drain(takes, state) == Feed(takes, old(state), chunk)
        decreases Work(state)
      {
        ghost var turn := Turn(takes, state);
        if expected.None? {
          var n := Length(buffer[..HEADER_BYTES]);
          buffer := buffer[HEADER_BYTES..];
          expected := Some(n);
          failed := !(0 < n <= MAX_FRAME_BYTES);
        } else {
          var payload := buffer[..expected.value];
          buffer := buffer[expected.value..];
          expected := None;
          failed := !takes(count, payload);
          if !failed {
            delivered := delivered + [payload];
            count := count + 1;
          }
        }
        state := turn;
      }
    }
  }
}
