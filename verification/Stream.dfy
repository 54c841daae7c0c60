/** The frame stream: one-shot parsing of a whole byte string, reassembly from reads into a bounded
    buffer (the value-level account of read_cb in src/server.c), and when the two agree. */
module Stream {
  import opened Bytes
  import opened Frame

  const READ_CHUNK: nat := 4096
  const RX_CAP: nat := 4 * READ_CHUNK

  datatype Message = Message(kind: byte, reqId: u32, payload: bytes)

  predicate ValidMessage(m: Message) {
    m.kind != 0 && |m.payload| <= MAX_FRAME_PAYLOAD
  }

  /** tools/client_daemon.py encode_frame; also the buffer that session_send_frame fills. */
  function EncodeMessage(m: Message): (r: bytes)
    requires ValidMessage(m)
    ensures |r| == HEADER_SIZE + |m.payload|
  {
    HeaderBytes(Header(m.kind, 0, m.reqId, |m.payload|)) + m.payload
  }

  function WireSize(m: Message): nat {
    HEADER_SIZE + |m.payload|
  }

  // ---- One-shot parsing ----

  datatype Front = Incomplete | Malformed | Complete(message: Message)

  function First(b: bytes): Front {
    match DecodeHeader(b)
    case NeedMore => Incomplete
    case Bad => Malformed
    case Decoded(h) =>
      if |b| < HEADER_SIZE + h.length then Incomplete
      else Complete(Message(h.kind, h.reqId, b[HEADER_SIZE..HEADER_SIZE + h.length]))
  }

  lemma FirstSize(b: bytes)
    ensures First(b).Complete? ==> WireSize(First(b).message) <= |b| && ValidMessage(First(b).message)
  {
  }

  datatype Parsed = Parsed(messages: seq<Message>, rest: bytes, bad: bool)

  function Parse(b: bytes): (p: Parsed)
    decreases |b|
  {
    match First(b)
    case Incomplete => Parsed([], b, false)
    case Malformed => Parsed([], b, true)
    case Complete(m) =>
      FirstSize(b);
      var p := Parse(b[WireSize(m)..]);
      Parsed([m] + p.messages, p.rest, p.bad)
  }

  /** Only the first 14 bytes matter to the header. */
  lemma DecodePrefix(b: bytes, k: nat)
    requires HEADER_SIZE <= k <= |b|
    ensures DecodeHeader(b[..k]) == DecodeHeader(b)
  {
    var p := b[..k];
    assert p[..4] == b[..4];
    assert p[6..10] == b[6..10];
    assert p[10..14] == b[10..14];
  }

  lemma FirstStable(a: bytes, b: bytes)
    requires !First(a).Incomplete?
    ensures First(a + b) == First(a)
  {
    assert (a + b)[..|a|] == a;
    DecodePrefix(a + b, |a|);
    if First(a).Complete? {
      var n := WireSize(First(a).message);
      assert (a + b)[HEADER_SIZE..n] == a[HEADER_SIZE..n];
    }
  }

  lemma FirstEncoded(m: Message, tail: bytes)
    requires ValidMessage(m)
    ensures First(EncodeMessage(m) + tail) == Complete(m)
  {
    var h := Header(m.kind, 0, m.reqId, |m.payload|);
    assert EncodeMessage(m) + tail == HeaderBytes(h) + (m.payload + tail);
    DecodeEncoded(h, m.payload + tail);
  }

  /** What has been parsed stays parsed, and the rest can be parsed later together with the bytes
      that follow. */
  lemma {:induction false} ParseAppend(a: bytes, b: bytes)
    ensures Parse(a).bad ==> Parse(a + b).bad && Parse(a + b).messages == Parse(a).messages
    ensures !Parse(a).bad ==>
              var later := Parse(Parse(a).rest + b);
              Parse(a + b) == Parsed(Parse(a).messages + later.messages, later.rest, later.bad)
    decreases |a|
  {
    hide First;
    match First(a)
    case Incomplete =>
    case Malformed => FirstStable(a, b);
    case Complete(m) =>
      FirstSize(a);
      FirstStable(a, b);
      var n := WireSize(m);
      assert (a + b)[n..] == a[n..] + b;
      ParseAppend(a[n..], b);
      if !Parse(a).bad {
        var now, later := Parse(a[n..]).messages, Parse(Parse(a).rest + b).messages;
        assert [m] + (now + later) == ([m] + now) + later;
      }
  }

  /** One whole frame, as the encoder makes it. */
  predicate IsFrame(b: bytes) {
    match First(b)
    case Complete(m) => ValidMessage(m) && EncodeMessage(m) == b
    case _ => false
  }

  lemma EncodedIsFrame(m: Message)
    requires ValidMessage(m)
    ensures First(EncodeMessage(m)) == Complete(m) && IsFrame(EncodeMessage(m))
  {
    hide First, EncodeMessage;
    FirstEncoded(m, []);
    assert EncodeMessage(m) + [] == EncodeMessage(m);
  }

  function EncodeAll(ms: seq<Message>): bytes
    requires forall m <- ms :: ValidMessage(m)
  {
    if ms == [] then [] else EncodeMessage(ms[0]) + EncodeAll(ms[1..])
  }

  /** Parsing inverts encoding for any list of messages. */
  lemma {:induction false} ParseEncoded(ms: seq<Message>)
    requires forall m <- ms :: ValidMessage(m)
    ensures Parse(EncodeAll(ms)) == Parsed(ms, [], false)
  {
    if ms != [] {
      FirstEncoded(ms[0], EncodeAll(ms[1..]));
      assert EncodeAll(ms)[WireSize(ms[0])..] == EncodeAll(ms[1..]);
      ParseEncoded(ms[1..]);
    }
  }

  lemma {:induction false} ParseSizes(b: bytes)
    ensures forall m <- Parse(b).messages :: WireSize(m) <= |b|
    ensures First(Parse(b).rest) == if Parse(b).bad then Malformed else Incomplete
    ensures |Parse(b).rest| <= |b|
    decreases |b|
  {
    match First(b)
    case Incomplete =>
    case Malformed =>
    case Complete(m) =>
      FirstSize(b);
      ParseSizes(b[WireSize(m)..]);
  }

  // ---- Reassembly ----

  datatype Outcome = Going | Overflow | BadHeader

  /** What the reads so far have dispatched, what is buffered, and whether reading goes on. */
  datatype Feed = Feed(messages: seq<Message>, rest: bytes, outcome: Outcome)

  /** One read: append to the buffer if it fits, dispatch every complete frame, keep the rest. */
  function Deliver(buf: bytes, chunk: bytes): Feed {
    if |buf| + |chunk| > RX_CAP then Feed([], buf, Overflow)
    else
      var p := Parse(buf + chunk);
      Feed(p.messages, p.rest, if p.bad then BadHeader else Going)
  }

  function DeliverAll(buf: bytes, chunks: seq<bytes>): Feed
    decreases |chunks|
  {
    if chunks == [] then Feed([], buf, Going)
    else
      var f := Deliver(buf, chunks[0]);
      if !f.outcome.Going? then f
      else
        var g := DeliverAll(f.rest, chunks[1..]);
        Feed(f.messages + g.messages, g.rest, g.outcome)
  }

  predicate Reads(chunks: seq<bytes>) {
    forall c <- chunks :: |c| <= READ_CHUNK
  }

  /** Whatever the reads, what is dispatched is a prefix of the one-shot parse; without an overflow
      it is all of it, with the same rest, and a bad header stops after the same messages. */
  lemma {:induction false} DeliverRefinesParse(buf: bytes, chunks: seq<bytes>)
    requires First(buf).Incomplete?
    ensures var f, p := DeliverAll(buf, chunks), Parse(buf + Concat(chunks));
            && f.messages <= p.messages
            && (f.outcome.Going? ==> f.messages == p.messages && f.rest == p.rest && !p.bad)
            && (f.outcome.BadHeader? ==> f.messages == p.messages && p.bad)
            && (f.outcome.Going? ==> First(f.rest).Incomplete?)
    decreases |chunks|
  {
    if chunks == [] {
      assert buf + [] == buf;
    } else {
      var f := Deliver(buf, chunks[0]);
      var a, b := buf + chunks[0], Concat(chunks[1..]);
      assert buf + Concat(chunks) == a + b;
      ParseAppend(a, b);
      ParseSizes(a);
      if f.outcome.Going? {
        DeliverRefinesParse(f.rest, chunks[1..]);
      }
    }
  }

  /** No frame longer than the buffer is ever dispatched, although headers allow 65536 bytes. */
  lemma {:induction false} DispatchedFitBuffer(buf: bytes, chunks: seq<bytes>)
    ensures forall m <- DeliverAll(buf, chunks).messages :: WireSize(m) <= RX_CAP
    decreases |chunks|
  {
    if chunks != [] {
      var f := Deliver(buf, chunks[0]);
      ParseSizes(buf + chunks[0]);
      if f.outcome.Going? {
        DispatchedFitBuffer(f.rest, chunks[1..]);
      }
    }
  }

  // ---- Overflow: exactly when some fragmentation hits it ----

  /** The largest frame that no fragmentation can push out of the buffer. */
  const SAFE_FRAME: nat := RX_CAP - READ_CHUNK + 1

  /** Some frame of the stream is longer than 12289 bytes and the stream goes on for more than 16384
      bytes from where that frame starts. */
  predicate Overlong(b: bytes)
    decreases |b|
  {
    match DecodeHeader(b)
    case NeedMore => false
    case Bad => false
    case Decoded(h) =>
      var n := HEADER_SIZE + h.length;
      (n > SAFE_FRAME && |b| > RX_CAP) || (|b| >= n && Overlong(b[n..]))
  }

  lemma {:induction false} OverlongAfterParse(a: bytes, b: bytes)
    requires !Parse(a).bad
    ensures Overlong(Parse(a).rest + b) ==> Overlong(a + b)
    decreases |a|
  {
    if First(a).Complete? {
      FirstSize(a);
      FirstStable(a, b);
      var n := WireSize(First(a).message);
      assert (a + b)[n..] == a[n..] + b;
      OverlongAfterParse(a[n..], b);
    }
  }

  lemma {:induction false} OverflowNeedsOverlong(buf: bytes, chunks: seq<bytes>)
    requires Reads(chunks) && First(buf).Incomplete?
    requires DeliverAll(buf, chunks).outcome.Overflow?
    ensures Overlong(buf + Concat(chunks))
    decreases |chunks|
  {
    var a, b := buf + chunks[0], Concat(chunks[1..]);
    var s := buf + Concat(chunks);
    assert s == a + b;
    if |a| > RX_CAP {
      assert s[..|buf|] == buf;
      DecodePrefix(s, |buf|);
    } else {
      ParseSizes(a);
      OverflowNeedsOverlong(Parse(a).rest, chunks[1..]);
      OverlongAfterParse(a, b);
    }
  }

  function Pieces(b: bytes): (chunks: seq<bytes>)
    ensures Reads(chunks)
    ensures Concat(chunks) == b
  {
    if b == [] then []
    else
      var n := Min(|b|, READ_CHUNK);
      assert b == b[..n] + b[n..];
      [b[..n]] + Pieces(b[n..])
  }

  /** Reads that stay within one unfinished frame only fill the buffer. */
  lemma {:induction false} PiecesFill(buf: bytes, b: bytes)
    requires |buf + b| <= RX_CAP
    requires forall k | 0 <= k < |buf + b| :: First((buf + b)[..k]).Incomplete?
    ensures var f, p := DeliverAll(buf, Pieces(b)), Parse(buf + b);
            f == Feed(p.messages, p.rest, if p.bad then BadHeader else Going)
               || (b == [] && f == Feed([], buf, Going))
    decreases |b|
  {
    if b != [] {
      var n := Min(|b|, READ_CHUNK);
      var whole := buf + b;
      assert whole == buf + b[..n] + b[n..];
      assert Pieces(b)[0] == b[..n] && Pieces(b)[1..] == Pieces(b[n..]);
      if n == |b| {
        assert b[..n] == b;
        assert Pieces(b[n..]) == [];
      } else {
        assert buf + b[..n] == whole[..|buf| + n];
        PiecesFill(buf + b[..n], b[n..]);
      }
    }
  }

  lemma PrefixIncomplete(b: bytes, h: Header, k: nat)
    requires DecodeHeader(b) == Decoded(h)
    requires k <= |b| && k < HEADER_SIZE + h.length
    ensures First(b[..k]).Incomplete?
  {
    if k >= HEADER_SIZE {
      DecodePrefix(b, k);
    }
  }

  /** The feed that goes on with g after f. */
  function Then(f: Feed, g: Feed): Feed {
    Feed(f.messages + g.messages, g.rest, g.outcome)
  }

  lemma DeliverCons(buf: bytes, c: bytes, cs: seq<bytes>)
    ensures var f := Deliver(buf, c);
            DeliverAll(buf, [c] + cs) == if f.outcome.Going? then Then(f, DeliverAll(f.rest, cs)) else f
  {
    hide Deliver;
    assert ([c] + cs)[1..] == cs;
  }

  lemma ThenAssociative(f: Feed, g: Feed, h: Feed)
    ensures Then(Then(f, g), h) == Then(f, Then(g, h))
  {
    assert (f.messages + g.messages) + h.messages == f.messages + (g.messages + h.messages);
  }

  lemma {:induction false} DeliverAppend(buf: bytes, a: seq<bytes>, b: seq<bytes>)
    requires DeliverAll(buf, a).outcome.Going?
    ensures DeliverAll(buf, a + b) == Then(DeliverAll(buf, a), DeliverAll(DeliverAll(buf, a).rest, b))
    decreases |a|
  {
    hide Deliver;
    if a == [] {
      assert a + b == b;
      assert [] + DeliverAll(buf, b).messages == DeliverAll(buf, b).messages;
    } else {
      hide DeliverAll;
      var c, cs := a[0], a[1..];
      assert a == [c] + cs;
      assert a + b == [c] + (cs + b);
      DeliverCons(buf, c, cs);
      DeliverCons(buf, c, cs + b);
      var d := Deliver(buf, c);
      DeliverAppend(d.rest, cs, b);
      ThenAssociative(d, DeliverAll(d.rest, cs), DeliverAll(DeliverAll(d.rest, cs).rest, b));
    }
  }

  /** Feeding the whole first frame, in pieces, leaves the buffer empty. */
  lemma FeedFrame(b: bytes, h: Header)
    requires DecodeHeader(b) == Decoded(h)
    requires |b| >= HEADER_SIZE + h.length && HEADER_SIZE + h.length <= RX_CAP
    ensures var f := DeliverAll([], Pieces(b[..HEADER_SIZE + h.length]));
            f.outcome.Going? && f.rest == []
  {
    var n := HEADER_SIZE + h.length;
    var p := b[..n];
    DecodePrefix(b, n);
    assert p[n..] == [];
    FillFirst(b, h, n);
  }

  /** Feeding a proper part of the first frame leaves exactly that part in the buffer. */
  lemma FeedPart(b: bytes, h: Header, k: nat)
    requires DecodeHeader(b) == Decoded(h)
    requires k <= |b| && k < HEADER_SIZE + h.length && k <= RX_CAP
    ensures DeliverAll([], Pieces(b[..k])) == Feed([], b[..k], Going)
  {
    PrefixIncomplete(b, h, k);
    FillFirst(b, h, k);
  }

  lemma FillFirst(b: bytes, h: Header, k: nat)
    requires DecodeHeader(b) == Decoded(h)
    requires k <= |b| && k <= HEADER_SIZE + h.length && k <= RX_CAP
    ensures var f, p := DeliverAll([], Pieces(b[..k])), Parse(b[..k]);
            f == Feed(p.messages, p.rest, if p.bad then BadHeader else Going)
  {
    hide First;
    var head := b[..k];
    assert [] + head == head;
    forall i | 0 <= i < |[] + head| ensures First(([] + head)[..i]).Incomplete? {
      assert ([] + head)[..i] == b[..i];
      PrefixIncomplete(b, h, i);
    }
    PiecesFill([], head);
    if head == [] {
      assert First([]).Incomplete? by { PrefixIncomplete(b, h, 0); assert b[..0] == []; }
    }
  }

  /** Once the reads of a have been taken in, an overflow in the reads of b is an overflow of both. */
  lemma OverflowLater(head: bytes, tail: seq<bytes>)
    requires var f := DeliverAll([], Pieces(head));
             f.outcome.Going? && DeliverAll(f.rest, tail).outcome.Overflow?
    requires Reads(tail)
    ensures var chunks := Pieces(head) + tail;
            && Reads(chunks) && Concat(chunks) == head + Concat(tail)
            && DeliverAll([], chunks).outcome.Overflow?
  {
    hide Deliver, DeliverAll;
    ConcatAppend(Pieces(head), tail);
    DeliverAppend([], Pieces(head), tail);
  }

  lemma OverlongOverflows(b: bytes) returns (chunks: seq<bytes>)
    requires Overlong(b)
    ensures Reads(chunks) && Concat(chunks) == b
    ensures DeliverAll([], chunks).outcome.Overflow?
    decreases |b|
  {
    hide DecodeHeader, Deliver, DeliverAll, Pieces;
    var h := DecodeHeader(b).header;
    var n := HEADER_SIZE + h.length;
    var head, tail;
    if n > SAFE_FRAME && |b| > RX_CAP {
      head := b[..SAFE_FRAME];
      FeedPart(b, h, SAFE_FRAME);
      tail := OverflowingTail(head, b[SAFE_FRAME..]);
    } else {
      head := b[..n];
      FeedFrame(b, h);
      tail := OverlongOverflows(b[n..]);
    }
    OverflowLater(head, tail);
    chunks := Pieces(head) + tail;
    assert head + b[|head|..] == b;
  }

  lemma OverflowingTail(buf: bytes, more: bytes) returns (tail: seq<bytes>)
    requires |buf| == SAFE_FRAME && |more| >= READ_CHUNK
    ensures Reads(tail) && Concat(tail) == more
    ensures DeliverAll(buf, tail).outcome.Overflow?
  {
    var next, later := more[..READ_CHUNK], Pieces(more[READ_CHUNK..]);
    tail := [next] + later;
    DeliverCons(buf, next, later);
    ConcatAppend([next], later);
    assert Concat([next]) == next;
  }

  /** A stream can be split into reads that overflow the buffer exactly when it is overlong. */
  lemma OverflowExactly(b: bytes)
    ensures Overlong(b) <==>
            exists chunks: seq<bytes> ::
              Reads(chunks) && Concat(chunks) == b && DeliverAll([], chunks).outcome.Overflow?
  {
    if Overlong(b) {
      var chunks := OverlongOverflows(b);
    }
    forall chunks: seq<bytes> | Reads(chunks) && Concat(chunks) == b
                                && DeliverAll([], chunks).outcome.Overflow?
      ensures Overlong(b)
    {
      OverflowNeedsOverlong([], chunks);
      assert [] + Concat(chunks) == b;
    }
  }

  /** Reassembly refines one-shot parsing: unless the stream is overlong, every split into reads of
      at most 4096 bytes dispatches the same messages in order, and ends at a bad header exactly
      when the whole stream has one. */
  lemma Reassembly(chunks: seq<bytes>)
    requires Reads(chunks) && !Overlong(Concat(chunks))
    ensures var f, p := DeliverAll([], chunks), Parse(Concat(chunks));
            && f.messages == p.messages
            && f.outcome == (if p.bad then BadHeader else Going)
            && (!p.bad ==> f.rest == p.rest)
  {
    assert [] + Concat(chunks) == Concat(chunks);
    DeliverRefinesParse([], chunks);
    if DeliverAll([], chunks).outcome.Overflow? {
      OverflowNeedsOverlong([], chunks);
    }
  }

  /** The simple sufficient bound: no frame of more than 12289 bytes. */
  lemma {:induction false} ShortFramesNotOverlong(ms: seq<Message>)
    requires forall m <- ms :: ValidMessage(m) && WireSize(m) <= SAFE_FRAME
    ensures !Overlong(EncodeAll(ms))
  {
    if ms != [] {
      var m, tail := ms[0], EncodeAll(ms[1..]);
      assert ValidMessage(m);
      var h := Header(m.kind, 0, m.reqId, |m.payload|);
      assert EncodeAll(ms) == HeaderBytes(h) + (m.payload + tail);
      DecodeEncoded(h, m.payload + tail);
      assert EncodeAll(ms)[WireSize(m)..] == tail;
      ShortFramesNotOverlong(ms[1..]);
    }
  }
}
