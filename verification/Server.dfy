/** src/server.c: read_cb, which reassembles frames in a fixed buffer and dispatches them. */
module Server {
  import opened Bytes
  import opened Frame
  import opened Stream
  import opened SessionState
  import opened Protocol

  /** The environment's answers for each frame, by the number of frames received before it. */
  type Oracle = nat -> Env

  function Receive(c: Core, m: Message, now: nat, env: Oracle): Core {
    Dispatch(c.(framesRx := c.framesRx + 1, bytesRx := c.bytesRx + WireSize(m)), m, now, env(c.framesRx))
  }

  function ReceiveAll(c: Core, ms: seq<Message>, now: nat, env: Oracle): Core
    decreases |ms|
  {
    if ms == [] then c else ReceiveAll(Receive(c, ms[0], now, env), ms[1..], now, env)
  }

  /** One read of a non-empty chunk: the new buffer and the new core. Note that frames after one
      whose handler closes the session are dispatched all the same. */
  function Read(rx: bytes, c: Core, chunk: bytes, now: nat, env: Oracle): (bytes, Core) {
    var c1 := c.(link := c.link.(lastRx := now));
    if |rx| + |chunk| > RX_CAP then (rx, c1.(link := CloseLink(c1.link)))
    else
      var p := Parse(rx + chunk);
      var c2 := ReceiveAll(c1, p.messages, now, env);
      if p.bad then (rx + chunk, c2.(link := CloseLink(c2.link)))
      else (p.rest, c2)
  }

  lemma {:induction false} ReceiveAllSnoc(c: Core, ms: seq<Message>, m: Message, now: nat, env: Oracle)
    ensures ReceiveAll(c, ms + [m], now, env) == Receive(ReceiveAll(c, ms, now, env), m, now, env)
    decreases |ms|
  {
    hide Receive;
    if ms == [] {
      assert [m][1..] == [];
    } else {
      assert (ms + [m])[0] == ms[0] && (ms + [m])[1..] == ms[1..] + [m];
      ReceiveAllSnoc(Receive(c, ms[0], now, env), ms[1..], m, now, env);
    }
  }

  /** The rest of a byte string after its complete frames so far: one turn of the frame loop. */
  lemma ParseStep(b: bytes, at: nat)
    requires at <= |b|
    ensures var p := Parse(b[at..]);
            match First(b[at..])
            case Incomplete => p == Parsed([], b[at..], false)
            case Malformed => p == Parsed([], b[at..], true)
            case Complete(m) =>
              && at + WireSize(m) <= |b| && ValidMessage(m)
              && var q := Parse(b[at + WireSize(m)..]);
                 p == Parsed([m] + q.messages, q.rest, q.bad)
  {
    hide First;
    FirstSize(b[at..]);
    if First(b[at..]).Complete? {
      var n := WireSize(First(b[at..]).message);
      assert b[at..][n..] == b[at + n..];
    }
  }

  method NextFrame(buf: array<byte>, at: nat, used: nat) returns (r: Front)
    requires at <= used <= buf.Length
    ensures r == First(buf[at..used])
  {
    var status := DecodeHeaderAt(buf, at, used - at);
    assert buf[at..at + (used - at)] == buf[at..used];
    match status {
      case NeedMore => r := Incomplete;
      case Bad => r := Malformed;
      case Decoded(h) =>
        var size := HEADER_SIZE + h.length;
        if used - at < size {
          r := Incomplete;
        } else {
          assert buf[at..used][HEADER_SIZE..size] == buf[at + HEADER_SIZE..at + size];
          r := Complete(Message(h.kind, h.reqId, buf[at + HEADER_SIZE..at + size]));
        }
    }
  }

  /** memcpy of the chunk behind the bytes already buffered. */
  method Append(buf: array<byte>, used: nat, chunk: bytes)
    requires used + |chunk| <= buf.Length
    modifies buf
    ensures buf[..used + |chunk|] == old(buf[..used]) + chunk
  {
    for i := 0 to |chunk|
      invariant buf[..used] == old(buf[..used])
      invariant buf[used..used + i] == chunk[..i]
    {
      buf[used + i] := chunk[i];
    }
    assert buf[..used + |chunk|] == buf[..used] + buf[used..used + |chunk|];
  }

  /** memmove of the unconsumed bytes to the front. */
  method Compact(buf: array<byte>, offset: nat, used: nat)
    requires offset <= used <= buf.Length
    modifies buf
    ensures buf[..used - offset] == old(buf[offset..used])
  {
    for i := 0 to used - offset
      invariant buf[..i] == old(buf[offset..offset + i])
      invariant buf[offset + i..used] == old(buf[offset + i..used])
    {
      assert buf[offset + i] == buf[offset + i..used][0];
      buf[i] := buf[offset + i];
    }
  }

  /** The frame loop: dispatch every complete frame in the buffer, in order. */
  method DispatchFrames(s: Session, now: nat, env: Oracle) returns (offset: nat, bad: bool)
    requires s.rxUsed <= s.rxBuf.Length
    modifies s`net, s`upload, s`download, s`fs, s`tally, s`proc, s`nextProcId, s`framesRx, s`bytesRx
    ensures offset <= s.rxUsed
    ensures var p := Parse(s.rxBuf[..s.rxUsed]);
            && p.rest == s.rxBuf[offset..s.rxUsed] && p.bad == bad
            && s.State() == ReceiveAll(old(s.State()), p.messages, now, env)
  {
    hide Parse, First, ReceiveAll, Dispatch;
    ghost var whole, start := s.rxBuf[..s.rxUsed], s.State();
    offset, bad := 0, false;
    ghost var done: seq<Message> := [];
    assert whole[0..] == whole;
    ReceiveNothing(start, now, env);
    while true
      invariant offset <= s.rxUsed
      invariant s.State() == ReceiveAll(start, done, now, env)
      invariant var q := Parse(whole[offset..]);
                Parse(whole) == Parsed(done + q.messages, q.rest, q.bad)
      decreases s.rxUsed - offset
    {
      var front := NextFrame(s.rxBuf, offset, s.rxUsed);
      assert s.rxBuf[offset..s.rxUsed] == whole[offset..];
      ParseStep(whole, offset);
      if !front.Complete? {
        bad := front.Malformed?;
        assert done + [] == done;
        return;
      }
      var m := front.message;
      ReceiveAllSnoc(start, done, m, now, env);
      ghost var rest := Parse(whole[offset + WireSize(m)..]).messages;
      assert done + ([m] + rest) == (done + [m]) + rest;
      var outcome := env(s.framesRx);
      s.framesRx := s.framesRx + 1;
      s.bytesRx := s.bytesRx + HEADER_SIZE + |m.payload|;
      HandleControl(s, m, now, outcome);
      done := done + [m];
      offset := offset + HEADER_SIZE + |m.payload|;
    }
  }

  method ReadCb(s: Session, chunk: bytes, now: nat, env: Oracle)
    requires s.rxBuf.Length == RX_CAP && s.rxUsed <= RX_CAP && chunk != []
    modifies s, s.rxBuf
    ensures s.rxUsed <= RX_CAP
    ensures (s.rxBuf[..s.rxUsed], s.State()) == Read(old(s.rxBuf[..s.rxUsed]), old(s.State()), chunk, now, env)
  {
    hide Parse, ReceiveAll, CloseLink;
    s.net := s.net.(lastRx := now);
    if s.rxUsed + |chunk| > s.rxBuf.Length {
      CloseSession(s);
      return;
    }
    Append(s.rxBuf, s.rxUsed, chunk);
    s.rxUsed := s.rxUsed + |chunk|;
    assert s.rxBuf[..s.rxUsed] == old(s.rxBuf[..s.rxUsed]) + chunk;
    var offset, bad := DispatchFrames(s, now, env);
    if bad {
      CloseSession(s);
      return;
    }
    if offset > 0 {
      Compact(s.rxBuf, offset, s.rxUsed);
      s.rxUsed := s.rxUsed - offset;
    }
  }

  /** A read hands to the router exactly what reassembly delivers from the buffer and the chunk; the
      session is closed if that ends in an overflow or a bad header, and goes on with the rest if
      not. */
  lemma ReadDelivers(rx: bytes, c: Core, chunk: bytes, now: nat, env: Oracle)
    ensures var f := Deliver(rx, chunk);
            var r := Read(rx, c, chunk, now, env);
            var heard := c.(link := c.link.(lastRx := now));
            var done := ReceiveAll(heard, f.messages, now, env);
            && r.1 == (if f.outcome.Going? then done else done.(link := CloseLink(done.link)))
            && (f.outcome.Going? ==> r.0 == f.rest)
            && (!f.outcome.Going? ==> r.1.link.closed)
  {
    hide Parse, Receive;
  }

  lemma ReceiveNothing(c: Core, now: nat, env: Oracle)
    ensures ReceiveAll(c, [], now, env) == c
  {
    hide Receive;
  }
}
