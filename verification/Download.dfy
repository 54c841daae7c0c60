/** What a download queues: always a prefix of the file, the whole file before GET_END, and exactly
    which files fit the write queue, since nothing drains it while the handler runs. */
module Download {
  import opened Bytes
  import opened Frame
  import opened Stream
  import opened SessionState
  import opened Transfers
  import opened Protocol
  import opened Server
  import opened Lifetime
  import opened Invariants
  import opened Runs
  import opened Argv
  import opened Client
  import Kv
  import KvLaws

  function EncodeEach(ms: seq<Message>): (r: seq<bytes>)
    requires forall m <- ms :: ValidMessage(m)
    ensures |r| == |ms|
  {
    seq(|ms|, i requires 0 <= i < |ms| => EncodeMessage(ms[i]))
  }

  lemma EncodeEachAppend(a: seq<Message>, b: seq<Message>)
    requires forall m <- a :: ValidMessage(m)
    requires forall m <- b :: ValidMessage(m)
    ensures forall m <- a + b :: ValidMessage(m)
    ensures EncodeEach(a + b) == EncodeEach(a) + EncodeEach(b)
  {
    hide EncodeMessage;
    assert forall m <- a + b :: ValidMessage(m);
  }

  lemma {:induction false} ConcatEncoded(ms: seq<Message>)
    requires forall m <- ms :: ValidMessage(m)
    ensures Concat(EncodeEach(ms)) == EncodeAll(ms)
  {
    hide EncodeMessage;
    if ms != [] {
      assert EncodeEach(ms)[1..] == EncodeEach(ms[1..]);
      ConcatEncoded(ms[1..]);
    }
  }

  function End(reqId: u32): Message {
    Message(GET_END, reqId, Ascii("status=ok"))
  }

  /** c is in the chunk loop of a download of the given content. */
  predicate Streaming(c: Core, content: bytes) {
    var d := c.download;
    && d.file in c.fs.open && c.fs.open[d.file] in c.fs.files
    && c.fs.files[c.fs.open[d.file]] == content
    && d.offset <= d.total == |content| && 1 <= d.chunkSize <= MAX_FRAME_PAYLOAD
  }

  /** r's queue is c's queue and these messages. */
  predicate Queued(l: Link, r: Link, ms: seq<Message>) {
    (forall m <- ms :: ValidMessage(m)) && r.inflight == l.inflight + EncodeEach(ms)
  }

  /** What a send adds to the queue: the message, or nothing. */
  lemma SendQueues(l: Link, m: Message, now: nat, env: Env)
    ensures var (r, sent) := Send(l, m, now, env);
            && (sent ==> ValidMessage(m) && r.inflight == l.inflight + [EncodeMessage(m)])
            && (!sent ==> r.inflight == l.inflight)
  {
    hide EncodeMessage;
  }

  lemma QueuedNone(l: Link, r: Link)
    requires r.inflight == l.inflight
    ensures Queued(l, r, [])
  {
    assert EncodeEach([]) == [];
  }

  lemma QueuedOne(l: Link, r: Link, m: Message)
    requires ValidMessage(m) && r.inflight == l.inflight + [EncodeMessage(m)]
    ensures Queued(l, r, [m])
  {
    hide EncodeMessage;
    assert EncodeEach([m]) == [EncodeMessage(m)];
  }

  lemma QueuedThen(l: Link, r: Link, s: Link, a: seq<Message>, b: seq<Message>)
    requires Queued(l, r, a) && Queued(r, s, b)
    ensures Queued(l, s, a + b)
  {
    EncodeEachAppend(a, b);
    assert s.inflight == l.inflight + (EncodeEach(a) + EncodeEach(b));
  }

  function Trouble(reqId: u32, f: Failure, env: Env): Message {
    Message(ERROR, reqId, ErrorText(f, env.strerror))
  }

  /** What may follow the chunks: GET_END after all of them, an ERROR if a read failed before that. */
  predicate TailOk(tail: seq<Message>, reqId: u32, complete: bool, env: Env) {
    tail == [] || tail == if complete then [End(reqId)] else [Trouble(reqId, ReadFailed, env)]
  }

  function NextData(c: Core, env: Env): Option<bytes> {
    var d := c.download;
    if d.offset >= d.total then None
    else ReadAt(c.fs, d.file, d.offset, Min(d.chunkSize, d.total - d.offset), env)
  }

  function NextChunk(c: Core, data: bytes): Message {
    Message(GET_CHUNK, c.download.reqId, data)
  }

  /** The state after one chunk was queued. */
  function Advanced(c: Core, data: bytes, now: nat, env: Env): Core {
    c.(link := Send(c.link, NextChunk(c, data), now, env).0,
       download := c.download.(offset := c.download.offset + |data|, progress := now))
  }

  /** The last turn of the chunk loop, as far as the queue is concerned. */
  lemma EndTurn(c: Core, now: nat, env: Env)
    requires c.download.offset >= c.download.total
    ensures var r := GetChunks(c, now, env);
            r.link == Send(c.link, End(c.download.reqId), now, env).0 && r.tally == Completed(c.tally)
  {
    hide Send, ReadAt, CloseFd, Ascii, EncodeMessage;
  }

  /** Any other turn. */
  lemma OneTurn(c: Core, now: nat, env: Env)
    requires c.download.offset < c.download.total
    ensures var d, r := c.download, GetChunks(c, now, env);
            match NextData(c, env)
            case None => r.link == SendError(c.link, d.reqId, ReadFailed, now, env) && r.tally == Aborted(c.tally)
            case Some(data) =>
              var (l, sent) := Send(c.link, NextChunk(c, data), now, env);
              if sent then r == GetChunks(Advanced(c, data, now, env), now, env)
              else r.link == l && r.tally == Aborted(c.tally)
  {
    hide Send, SendError, ReadAt, Abort, Ascii, EncodeMessage, Min;
    if NextData(c, env).Some? {
      var data := NextData(c, env).value;
      var (l, sent) := Send(c.link, NextChunk(c, data), now, env);
      assert Advanced(c, data, now, env) ==
             c.(link := l, download := c.download.(offset := c.download.offset + |data|, progress := now));
    }
  }

  lemma ConcatCons(part: bytes, more: seq<bytes>)
    ensures Concat([part] + more) == part + Concat(more)
  {
    assert ([part] + more)[1..] == more;
  }

  lemma MessagesCons(reqId: u32, part: bytes, more: seq<bytes>, last: seq<Message>)
    ensures [Message(GET_CHUNK, reqId, part)] + (ChunkMessages(GET_CHUNK, reqId, more) + last)
         == ChunkMessages(GET_CHUNK, reqId, [part] + more) + last
  {
  }

  /** For any read results and any queue state: chunks of a prefix, then at most one more frame, and
      GET_END only after the whole file. */
  lemma {:induction false} ChunksSent(c: Core, content: bytes, now: nat, env: Env)
    returns (parts: seq<bytes>, tail: seq<Message>)
    requires Streaming(c, content)
    ensures var d, r := c.download, GetChunks(c, now, env);
            var at := d.offset + |Concat(parts)|;
            && at <= |content| && Concat(parts) == content[d.offset..at]
            && TailOk(tail, d.reqId, at == |content|, env)
            && r.tally == (if at == |content| then Completed(c.tally) else Aborted(c.tally))
            && Queued(c.link, r.link, ChunkMessages(GET_CHUNK, d.reqId, parts) + tail)
    decreases c.download.total - c.download.offset
  {
    hide Send, SendError, Queued, GetChunks, NextData, EncodeMessage;
    var d := c.download;
    if d.offset < d.total { OneTurn(c, now, env); } else { EndTurn(c, now, env); }
    if d.offset < d.total && NextData(c, env).Some? {
      var data := NextData(c, env).value;
      ReadIsSlice(c, content, env);
      var (l, sent) := Send(c.link, NextChunk(c, data), now, env);
      SendQueues(c.link, NextChunk(c, data), now, env);
      if sent {
        QueuedOne(c.link, l, NextChunk(c, data));
        var next := Advanced(c, data, now, env);
        var more;
        more, tail := ChunksSent(next, content, now, env);
        parts := [data] + more;
        ConcatCons(data, more);
        MessagesCons(d.reqId, data, more, tail);
        QueuedThen(c.link, l, GetChunks(next, now, env).link, [NextChunk(c, data)],
                   ChunkMessages(GET_CHUNK, d.reqId, more) + tail);
        return;
      }
    }
    parts, tail := [], [];
    if d.offset >= d.total {
      tail := SendTail(c.link, End(d.reqId), now, env);
    } else if NextData(c, env).None? {
      tail := ErrorTail(c.link, d.reqId, ReadFailed, now, env);
    } else {
      QueuedNone(c.link, GetChunks(c, now, env).link);
    }
    assert ChunkMessages(GET_CHUNK, d.reqId, []) + tail == tail;
    assert content[d.offset..d.offset] == [];
  }

  lemma ReadIsSlice(c: Core, content: bytes, env: Env)
    requires Streaming(c, content)
    ensures var d := c.download;
            var data := NextData(c, env);
            data.Some? ==>
              && 1 <= |data.value| <= d.chunkSize && d.offset + |data.value| <= |content|
              && data.value == content[d.offset..d.offset + |data.value|]
  {
  }

  /** The messages a last send adds. */
  lemma SendTail(l: Link, m: Message, now: nat, env: Env) returns (tail: seq<Message>)
    ensures Queued(l, Send(l, m, now, env).0, tail)
    ensures tail == if Send(l, m, now, env).1 then [m] else []
  {
    hide Send, EncodeMessage;
    SendQueues(l, m, now, env);
    var (r, sent) := Send(l, m, now, env);
    if sent {
      tail := [m];
      QueuedOne(l, r, m);
    } else {
      tail := [];
      QueuedNone(l, r);
    }
  }

  lemma ErrorTail(l: Link, reqId: u32, f: Failure, now: nat, env: Env) returns (tail: seq<Message>)
    ensures Queued(l, SendError(l, reqId, f, now, env), tail)
    ensures tail == [] || tail == [Trouble(reqId, f, env)]
  {
    hide Send, EncodeMessage, ErrorText, Queued;
    var text := ErrorText(f, env.strerror);
    if |text| < ERROR_CAP {
      tail := SendTail(l, Message(ERROR, reqId, text), now, env);
    } else {
      tail := [];
      QueuedNone(l, l);
    }
  }

  // ---- From the request to the client's file ----

  /** What one GET_BEGIN queues: nothing but an error; or the announcement, chunks of a prefix of the
      file, and then at most one more frame, GET_END only after the whole file. */
  predicate DownloadShape(ms: seq<Message>, reqId: u32, path: bytes, content: bytes, parts: seq<bytes>,
                          tail: seq<Message>, env: Env)
  {
    || ms == []
    || (|ms| == 1 && ms[0].kind == ERROR)
    || (&& Concat(parts) <= content
        && TailOk(tail, reqId, Concat(parts) == content, env)
        && ms == [Message(ACK, reqId, BeginReply(reqId, path, |content|))]
                 + (ChunkMessages(GET_CHUNK, reqId, parts) + tail))
  }

  /** How a download is counted: a start once the file is open and examined; then a completion if the whole
      file was queued after its announcement, an abort if a part of it was. */
  function Counted(t: Tally, examined: bool, ms: seq<Message>, whole: bool): Tally {
    if !examined then t
    else if ms == [] || ms[0].kind != ACK then t.(starts := t.starts + 1)
    else if whole then t.(starts := t.starts + 1, completes := t.completes + 1)
    else t.(starts := t.starts + 1, aborts := t.aborts + 1)
  }

  lemma OpenedSends(c: Core, reqId: u32, path: bytes, now: nat, env: Env)
    returns (ms: seq<Message>, parts: seq<bytes>, tail: seq<Message>)
    requires path in c.fs.files && c.download.file in c.fs.open && c.fs.open[c.download.file] == path
    requires 1 <= c.download.chunkSize <= MAX_FRAME_PAYLOAD
    ensures var r := GetOpened(c, reqId, path, now, env);
            && Queued(c.link, r.link, ms)
            && DownloadShape(ms, reqId, path, c.fs.files[path], parts, tail, env)
            && r.tally == Counted(c.tally, env.statOk, ms, Concat(parts) == c.fs.files[path])
  {
    hide Send, SendError, Queued, GetChunks, EncodeMessage, BeginReply, Abort;
    var content := c.fs.files[path];
    parts, tail := [], [];
    if !env.statOk {
      ms := ErrorTail(c.link, reqId, FileError, now, env);
      return;
    }
    var reply := BeginReply(reqId, path, |content|);
    if |reply| >= REPLY_CAP {
      ms := ErrorTail(c.link, reqId, ReplyOverflow, now, env);
      return;
    }
    var ack := Message(ACK, reqId, reply);
    var (l, sent) := Send(c.link, ack, now, env);
    SendQueues(c.link, ack, now, env);
    if !sent {
      ms := [];
      QueuedNone(c.link, l);
    } else {
      QueuedOne(c.link, l, ack);
      var d := c.download.(active := true, mode := Download, reqId := reqId, total := |content|,
                           offset := 0, progress := now);
      var c1 := c.(download := d, tally := Started(c.tally), link := l);
      parts, tail := ChunksSent(c1, content, now, env);
      ms := [ack] + (ChunkMessages(GET_CHUNK, reqId, parts) + tail);
      QueuedThen(c.link, l, GetChunks(c1, now, env).link, [ack], ChunkMessages(GET_CHUNK, reqId, parts) + tail);
      assert content[0..|content|] == content;
    }
  }

  lemma BeginSends(c: Core, reqId: u32, payload: bytes, path: bytes, now: nat, env: Env)
    returns (ms: seq<Message>, parts: seq<bytes>, tail: seq<Message>)
    requires c.download == IDLE && Kv.Copy(payload, PATH(), PATH_CAP) == Some(path)
    ensures var r := GetBegin(c, reqId, payload, now, env);
            && Queued(c.link, r.link, ms)
            && if path in c.fs.files then DownloadShape(ms, reqId, path, c.fs.files[path], parts, tail, env)
               else ms == [] || (|ms| == 1 && ms[0].kind == ERROR)
    ensures var examined := path in c.fs.files && env.openOk && env.fd !in c.fs.open && env.statOk;
            GetBegin(c, reqId, payload, now, env).tally
            == Counted(c.tally, examined, ms, examined && Concat(parts) == c.fs.files[path])
  {
    hide Send, SendError, Queued, GetOpened, EncodeMessage, BeginReply, Abort, ChunkSize, PATH, Kv.Copy;
    var (fs, fd) := OpenForRead(c.fs, path, env);
    parts, tail := [], [];
    if fd < 0 {
      ms := ErrorTail(c.link, reqId, NotFound, now, env);
    } else {
      var d := IDLE.(path := Some(path), chunkSize := ChunkSize(payload), file := fd);
      ms, parts, tail := OpenedSends(c.(fs := fs, download := d), reqId, path, now, env);
    }
  }

  lemma {:induction false} ChunkStream(reqId: u32, parts: seq<bytes>)
    ensures StreamOf(ChunkMessages(GET_CHUNK, reqId, parts), reqId) == ChunkMessages(GET_CHUNK, reqId, parts)
  {
    var ms := ChunkMessages(GET_CHUNK, reqId, parts);
    if parts != [] {
      var n := |parts| - 1;
      assert ms[..n] == ChunkMessages(GET_CHUNK, reqId, parts[..n]);
      ChunkStream(reqId, parts[..n]);
    }
  }

  lemma OneStream(m: Message, reqId: u32)
    ensures StreamOf([m], reqId) == if IsStream(m.kind) && m.reqId == reqId then [m] else []
  {
    assert [m][..0] == [];
    assert StreamOf([], reqId) == [];
  }

  lemma ShapeCollects(ms: seq<Message>, reqId: u32, path: bytes, content: bytes, parts: seq<bytes>,
                      tail: seq<Message>, env: Env)
    requires DownloadShape(ms, reqId, path, content, parts, tail, env) && End(reqId) in ms
    ensures Collected(StreamOf(ms, reqId)) == Some(content)
  {
    hide BeginReply, Collected, StreamOf, End;
    var ack := Message(ACK, reqId, BeginReply(reqId, path, |content|));
    var chunks := ChunkMessages(GET_CHUNK, reqId, parts);
    EndKind(reqId);
    assert End(reqId) !in chunks;
    assert End(reqId) in tail;
    assert tail == [End(reqId)];
    StreamAppend([ack], chunks + tail, reqId);
    StreamAppend(chunks, tail, reqId);
    OneStream(ack, reqId);
    OneStream(End(reqId), reqId);
    ChunkStream(reqId, parts);
    assert StreamOf(ms, reqId) == chunks + [End(reqId)];
    CollectChunks(reqId, parts, End(reqId));
  }

  lemma EndKind(reqId: u32)
    ensures End(reqId).kind == GET_END && End(reqId).reqId == reqId && ValidMessage(End(reqId))
    ensures WireSize(End(reqId)) == 23
  {
  }

  /** No stream frame of the list carries the request's id. */
  predicate Foreign(ms: seq<Message>, reqId: u32) {
    forall m <- ms :: IsStream(m.kind) ==> m.reqId != reqId
  }

  /** If GET_END was queued, a client that parses everything in flight and collects the request's
      stream gets exactly the file. */
  lemma BeginCollects(c: Core, reqId: u32, payload: bytes, path: bytes, earlier: seq<Message>,
                      now: nat, env: Env)
    requires c.download == IDLE && Kv.Copy(payload, PATH(), PATH_CAP) == Some(path)
    requires forall m <- earlier :: ValidMessage(m)
    requires c.link.inflight == EncodeEach(earlier) && Foreign(earlier, reqId)
    ensures var r := GetBegin(c, reqId, payload, now, env);
            var seen := Parse(Concat(r.link.inflight));
            && !seen.bad && seen.rest == []
            && (End(reqId) in seen.messages ==>
                  path in c.fs.files && Collected(StreamOf(seen.messages, reqId)) == Some(c.fs.files[path]))
  {
    hide GetBegin, EncodeMessage, BeginReply, Collected, StreamOf, End, Parse, DownloadShape, PATH, Kv.Copy;
    var ms, parts, tail := BeginSends(c, reqId, payload, path, now, env);
    var r := GetBegin(c, reqId, payload, now, env);
    QueuedSeen(c.link, r.link, earlier, ms);
    EndKind(reqId);
    if End(reqId) in earlier + ms {
      assert End(reqId) in ms;
      if path in c.fs.files {
        ShapeCollects(ms, reqId, path, c.fs.files[path], parts, tail, env);
        StreamAppend(earlier, ms, reqId);
        ForeignStream(earlier, reqId);
        assert [] + StreamOf(ms, reqId) == StreamOf(ms, reqId);
      }
    }
  }

  lemma {:induction false} ForeignStream(ms: seq<Message>, reqId: u32)
    requires Foreign(ms, reqId)
    ensures StreamOf(ms, reqId) == []
  {
    if ms != [] {
      ForeignStream(ms[..|ms| - 1], reqId);
    }
  }

  function MessageOf(b: bytes): Message {
    match First(b)
    case Complete(m) => m
    case _ => Message(0, 0, [])
  }

  /** The frames in flight. */
  function InFlight(l: Link): (ms: seq<Message>) {
    seq(|l.inflight|, i requires 0 <= i < |l.inflight| => MessageOf(l.inflight[i]))
  }

  lemma FrameOf(b: bytes)
    requires IsFrame(b)
    ensures ValidMessage(MessageOf(b)) && EncodeMessage(MessageOf(b)) == b
  {
    hide First, EncodeMessage;
  }

  lemma InFlightEncoded(l: Link)
    requires forall i :: 0 <= i < |l.inflight| ==> IsFrame(l.inflight[i])
    ensures forall m <- InFlight(l) :: ValidMessage(m)
    ensures l.inflight == EncodeEach(InFlight(l))
  {
    hide MessageOf, EncodeMessage, IsFrame;
    forall i | 0 <= i < |l.inflight|
      ensures ValidMessage(MessageOf(l.inflight[i])) && EncodeMessage(MessageOf(l.inflight[i])) == l.inflight[i]
    {
      FrameOf(l.inflight[i]);
    }
  }

  lemma GetItemsEncodable(path: bytes)
    requires Kv.Clean(path)
    ensures var items := GetItems(path);
            && Encodable(items) && |items| == 2
            && items[0] == (PATH(), path) && items[1] == (CHUNK_SIZE(), Decimal(CHUNK))
  {
    WordIsKey("path");
    WordIsKey("chunk_size");
    var items, size := GetItems(path), Decimal(CHUNK);
    assert items[0].0[0] != items[1].0[0];
  }

  lemma GetReadBack(path: bytes)
    requires UsableArg(path) && Kv.Clean(path)
    ensures var payload := EncodeKv(GetItems(path));
            Kv.Copy(payload, PATH(), PATH_CAP) == Some(path) && |payload| <= |path| + 37
  {
    hide Kv.Lookup;
    var items := GetItems(path);
    var size := Decimal(CHUNK);
    GetItemsEncodable(path);
    var lines := ItemLines(items);
    DecimalU64Fits(CHUNK);
    assert |lines| == 2 && |lines[0]| == 5 + |path| && |lines[1]| == 11 + |size| && lines[1..] == [lines[1]];
    assert Join([lines[1]]) == lines[1];
    assert |EncodeKv(items)| == |lines[0]| + 1 + |lines[1]|;
    EncodedPresent(items, 0);
  }

  /** GET_BEGIN of get_file in one read. */
  lemma RequestIsRead(w: World, reqId: u32, path: bytes, now: nat, env: Oracle)
    requires UsableArg(path) && Kv.Clean(path) && w.rx == []
    ensures ValidMessage(GetRequest(reqId, path)) && 1 <= WireSize(GetRequest(reqId, path)) <= READ_CHUNK
    ensures var c1 := w.core.(link := w.core.link.(lastRx := now));
            var c2 := c1.(framesRx := c1.framesRx + 1, bytesRx := c1.bytesRx + WireSize(GetRequest(reqId, path)));
            Step(w, now, ReadBytes(EncodeMessage(GetRequest(reqId, path)), env)).core
            == GetBegin(c2, reqId, EncodeKv(GetItems(path)), now, env(c1.framesRx))
  {
    hide EncodeKv, GetItems, GetBegin, Kv.Copy, EncodeMessage, Step;
    GetReadBack(path);
    ReadFrame(w, GetRequest(reqId, path), now, env);
  }

  /** End to end, from any reachable open session that is between frames and has no stream frame with
      the new request's id in flight: if GET_END is queued when the agent reads get_file's request, a
      client that parses everything in flight and collects the request's stream gets exactly the
      file. */
  lemma DownloadEndToEnd(w: World, reqId: u32, path: bytes, now: nat, env: Oracle)
    requires Reachable(w) && !w.core.link.closed && w.rx == []
    requires UsableArg(path) && Kv.Clean(path)
    requires Foreign(InFlight(w.core.link), reqId)
    ensures ValidMessage(GetRequest(reqId, path))
    ensures var s := Step(w, now, ReadBytes(EncodeMessage(GetRequest(reqId, path)), env));
            var seen := Parse(Concat(s.core.link.inflight));
            && !seen.bad && seen.rest == []
            && (End(reqId) in seen.messages ==>
                  && path in w.core.fs.files
                  && Collected(StreamOf(seen.messages, reqId)) == Some(w.core.fs.files[path]))
  {
    hide Reachable, Step, GetBegin, EncodeKv, GetItems, Parse, StreamOf, Collected, End, EncodeMessage, Kv.Copy,
         CoreOk, IsFrame;
    RequestIsRead(w, reqId, path, now, env);
    GetReadBack(path);
    ReachableOk(w);
    var c1 := w.core.(link := w.core.link.(lastRx := now));
    var c2 := c1.(framesRx := c1.framesRx + 1, bytesRx := c1.bytesRx + WireSize(GetRequest(reqId, path)));
    NoDownload(w.core, w.clock);
    InFlightEncoded(w.core.link);
    BeginCollects(c2, reqId, EncodeKv(GetItems(path)), path, InFlight(w.core.link), now, env(c1.framesRx));
  }

  lemma NoDownload(c: Core, now: nat)
    requires CoreOk(c, now)
    ensures c.download == IDLE && forall i :: 0 <= i < |c.link.inflight| ==> IsFrame(c.link.inflight[i])
  {
    hide ProcOk, UploadOk, IsFrame;
  }

  // ---- Which files fit ----

  function ChunkCount(n: nat, size: nat): nat
    requires size >= 1
  {
    if n == 0 then 0 else 1 + ChunkCount(n - Min(n, size), size)
  }

  /** The number of chunks is the quotient rounded up. */
  lemma {:induction false} ChunkCountIsCeil(n: nat, size: nat)
    requires size >= 1
    ensures ChunkCount(n, size) == (n + size - 1) / size
  {
    if n == 0 {
      CeilStep(0, size);
    } else if n <= size {
      CeilStep(n, size);
      assert ChunkCount(0, size) == 0;
    } else {
      ChunkCountIsCeil(n - size, size);
      CeilStep(n, size);
    }
  }

  lemma CeilStep(n: nat, size: nat)
    requires size >= 1
    ensures n == 0 ==> (n + size - 1) / size == 0
    ensures 1 <= n <= size ==> (n + size - 1) / size == 1
    ensures n > size ==> (n + size - 1) / size == 1 + (n - size + size - 1) / size
  {
    if 1 <= n <= size {
      QuotientIs(n + size - 1, size, 1);
    } else if n > size {
      var q := (n - 1) / size;
      assert n - 1 == q * size + (n - 1) % size;
      assert (q + 1) * size == q * size + size;
      QuotientIs(n + size - 1, size, q + 1);
    }
  }

  lemma QuotientIs(a: nat, b: nat, q: nat)
    requires b >= 1 && q * b <= a < q * b + b
    ensures a / b == q
  {
    var p := a / b;
    assert a == p * b + a % b;
    assert (p - q) * b == p * b - q * b;
    MulAtLeast(p - q, b);
  }

  lemma MulAtLeast(x: int, b: nat)
    ensures x >= 1 ==> x * b >= b
    ensures x <= -1 ==> x * b + b <= 0
  {
    if x >= 1 {
      assert x * b == b + (x - 1) * b;
    } else if x <= -1 {
      assert x * b + b == (x + 1) * b;
    }
  }

  /** The queue bytes of n file bytes in chunks of the given size. */
  function Cost(n: nat, size: nat): nat
    requires size >= 1
  {
    n + HEADER_SIZE * ChunkCount(n, size)
  }

  /** Every write is accepted and every read returns all it was asked for. */
  ghost predicate FullService(env: Env) {
    && (forall i: nat :: env.writes(i))
    && (forall at: nat :: env.readAt(at) >= MAX_FRAME_PAYLOAD)
  }

  lemma SendFits(l: Link, m: Message, now: nat, env: Env)
    requires !l.closed && ValidMessage(m) && FullService(env)
    ensures var (r, sent) := Send(l, m, now, env);
            && (sent <==> l.pending + WireSize(m) <= MAX_WRITE_QUEUE)
            && (sent ==> !r.closed && r.pending == l.pending + WireSize(m))
            && (!sent ==> r.closed)
  {
    hide EncodeMessage;
  }

  lemma FullRead(c: Core, content: bytes, env: Env)
    requires Streaming(c, content) && FullService(env) && c.download.offset < c.download.total
    ensures var d := c.download;
            NextData(c, env).Some? && |NextData(c, env).value| == Min(d.total - d.offset, d.chunkSize)
  {
    assert env.readAt(c.download.offset) >= MAX_FRAME_PAYLOAD;
  }

  /** The chunk frames of a content. */
  function Chunks(reqId: u32, content: bytes, size: nat): (ms: seq<Message>)
    requires size >= 1
  {
    ChunkMessages(GET_CHUNK, reqId, Slices(content, size))
  }

  lemma {:induction false} ChunksNumber(reqId: u32, content: bytes, size: nat)
    requires size >= 1
    ensures |Chunks(reqId, content, size)| == ChunkCount(|content|, size)
  {
    if content != [] {
      ChunksNumber(reqId, content[Min(size, |content|)..], size);
    }
  }

  /** One chunk, then the chunks of the rest and a tail, are the chunks of the whole and the tail. */
  lemma ChunksCons(reqId: u32, content: bytes, from: nat, size: nat, tail: seq<Message>)
    requires size >= 1 && from < |content|
    ensures var n := Min(size, |content| - from);
            var m := Message(GET_CHUNK, reqId, content[from..from + n]);
            [m] + (Chunks(reqId, content[from + n..], size) + tail) == Chunks(reqId, content[from..], size) + tail
  {
    var n := Min(size, |content| - from);
    assert content[from..][..n] == content[from..from + n];
    assert content[from..][n..] == content[from + n..];
    MessagesCons(reqId, content[from..from + n], Slices(content[from + n..], size), tail);
  }

  lemma QueuedEnd(c: Core, now: nat, env: Env)
    requires !c.link.closed && FullService(env) && c.link.pending <= MAX_WRITE_QUEUE
    ensures var m, (r, sent) := End(c.download.reqId), Send(c.link, End(c.download.reqId), now, env);
            if c.link.pending + WireSize(m) <= MAX_WRITE_QUEUE then Queued(c.link, r, [m])
            else Queued(c.link, r, [])
  {
    hide Send, Queued, FullService, EncodeMessage, End;
    EndKind(c.download.reqId);
    SendFits(c.link, End(c.download.reqId), now, env);
    var tail := SendTail(c.link, End(c.download.reqId), now, env);
  }

  /** From the loop head on, with full reads and writes: all remaining chunks and GET_END are queued if
      they fit; all chunks without GET_END, and the session is closed, if only they fit; and else
      only some of them, the transfer is aborted and the session is closed. */
  ghost predicate Fitted(c: Core, r: Core, chunks: seq<Message>, need: nat) {
    var end := End(c.download.reqId);
    && (need + WireSize(end) <= MAX_WRITE_QUEUE ==>
          Queued(c.link, r.link, chunks + [end]) && !r.link.closed && r.tally == Completed(c.tally))
    && (need <= MAX_WRITE_QUEUE < need + WireSize(end) ==>
          Queued(c.link, r.link, chunks) && r.link.closed && r.tally == Completed(c.tally))
    && (need > MAX_WRITE_QUEUE ==>
          QueuedPart(c.link, r.link, chunks) && r.link.closed && r.tally == Aborted(c.tally))
  }

  /** A proper prefix of the messages was queued. */
  ghost predicate QueuedPart(l: Link, r: Link, ms: seq<Message>) {
    exists k :: 0 <= k < |ms| && Queued(l, r, ms[..k])
  }

  lemma QueuedPartThen(l: Link, r: Link, s: Link, m: Message, ms: seq<Message>)
    requires Queued(l, r, [m]) && QueuedPart(r, s, ms)
    ensures QueuedPart(l, s, [m] + ms)
  {
    hide Queued;
    var k :| 0 <= k < |ms| && Queued(r, s, ms[..k]);
    QueuedThen(l, r, s, [m], ms[..k]);
    assert [m] + ms[..k] == ([m] + ms)[..k + 1];
  }

  lemma QueuedNonePart(l: Link, r: Link, ms: seq<Message>)
    requires r.inflight == l.inflight && ms != []
    ensures QueuedPart(l, r, ms)
  {
    hide Queued;
    QueuedNone(l, r);
    assert ms[..0] == [];
  }

  lemma LastTurnFits(c: Core, content: bytes, now: nat, env: Env)
    requires Streaming(c, content) && FullService(env) && !c.link.closed
    requires c.link.pending <= MAX_WRITE_QUEUE && c.download.offset == c.download.total
    ensures var d, r := c.download, GetChunks(c, now, env);
            Fitted(c, r, Chunks(d.reqId, content[d.offset..], d.chunkSize), c.link.pending)
  {
    hide Send, GetChunks, FullService, End, Queued;
    var d := c.download;
    EndTurn(c, now, env);
    EndKind(d.reqId);
    SendFits(c.link, End(d.reqId), now, env);
    QueuedEnd(c, now, env);
    assert content[d.offset..] == [];
    var none: seq<Message> := [];
    assert Chunks(d.reqId, [], d.chunkSize) == none;
    assert none + [End(d.reqId)] == [End(d.reqId)];
  }

  /** One more chunk in front of what fits. */
  lemma FittedCons(c: Core, next: Core, r: Core, m: Message, chunks: seq<Message>, need: nat)
    requires Fitted(next, r, chunks, need) && Queued(c.link, next.link, [m])
    requires next.download.reqId == c.download.reqId && next.tally == c.tally
    ensures Fitted(c, r, [m] + chunks, need)
  {
    hide Queued, End, QueuedPart;
    var end := End(c.download.reqId);
    if need + WireSize(end) <= MAX_WRITE_QUEUE {
      QueuedThen(c.link, next.link, r.link, [m], chunks + [end]);
      assert [m] + (chunks + [end]) == ([m] + chunks) + [end];
    } else if need <= MAX_WRITE_QUEUE {
      QueuedThen(c.link, next.link, r.link, [m], chunks);
    } else {
      QueuedPartThen(c.link, next.link, r.link, m, chunks);
    }
  }

  lemma {:induction false} ChunksFit(c: Core, content: bytes, now: nat, env: Env)
    requires Streaming(c, content) && FullService(env) && !c.link.closed
    requires c.link.pending <= MAX_WRITE_QUEUE
    ensures var d, r := c.download, GetChunks(c, now, env);
            Fitted(c, r, Chunks(d.reqId, content[d.offset..], d.chunkSize),
                   c.link.pending + Cost(d.total - d.offset, d.chunkSize))
    decreases c.download.total - c.download.offset
  {
    hide Send, SendError, GetChunks, NextData, FullService, End, ReadAt, Queued, Chunks, Fitted;
    var d := c.download;
    if d.offset >= d.total {
      LastTurnFits(c, content, now, env);
    } else {
      OneTurn(c, now, env);
      FullRead(c, content, env);
      ReadIsSlice(c, content, env);
      var data := NextData(c, env).value;
      var m := NextChunk(c, data);
      SendFits(c.link, m, now, env);
      ChunksCons(d.reqId, content, d.offset, d.chunkSize, []);
      var rest := Chunks(d.reqId, content[d.offset + |data|..], d.chunkSize);
      var whole := Chunks(d.reqId, content[d.offset..], d.chunkSize);
      assert [m] + rest == [m] + (rest + []) == whole + [] == whole;
      if Send(c.link, m, now, env).1 {
        var next := Advanced(c, data, now, env);
        SendQueues(c.link, m, now, env);
        QueuedOne(c.link, next.link, m);
        ChunksFit(next, content, now, env);
        FittedCons(c, next, GetChunks(c, now, env), m, rest,
                   next.link.pending + Cost(d.total - next.download.offset, d.chunkSize));
      } else {
        SendQueues(c.link, m, now, env);
        NoneFits(c, GetChunks(c, now, env), whole, c.link.pending + Cost(d.total - d.offset, d.chunkSize));
      }
    }
  }

  lemma NoneFits(c: Core, r: Core, chunks: seq<Message>, need: nat)
    requires need > MAX_WRITE_QUEUE && chunks != [] && r.link.inflight == c.link.inflight
    requires r.link.closed && r.tally == Aborted(c.tally)
    ensures Fitted(c, r, chunks, need)
  {
    hide Queued, End, QueuedPart;
    QueuedNonePart(c.link, r.link, chunks);
  }

  /** The exact threshold: with full reads and writes, a download of an existing file on an open
      session. Let need be the bytes already pending, the announcement, the file and 14 bytes per
      chunk. The announcement, every chunk of the file and GET_END are queued, and the session stays
      open, if and only if need and 23 more bytes fit; all of it but GET_END is queued if and only if
      need fits and 23 more bytes do not; only a part of it if and only if need does not fit. The
      transfer counts as complete if and only if need fits. */
  lemma DownloadThreshold(c: Core, reqId: u32, payload: bytes, path: bytes, now: nat, env: Env)
    requires CoreOk(c, now) && !c.link.closed && FullService(env)
    requires Kv.Copy(payload, PATH(), PATH_CAP) == Some(path) && path in c.fs.files
    requires env.openOk && env.fd !in c.fs.open && env.statOk
    requires |BeginReply(reqId, path, |c.fs.files[path]|)| < REPLY_CAP
    ensures var r := GetBegin(c, reqId, payload, now, env);
            var n, size := |c.fs.files[path]|, ChunkSize(payload);
            var need := c.link.pending + (HEADER_SIZE + |BeginReply(reqId, path, n)|)
                        + n + HEADER_SIZE * ((n + size - 1) / size);
            var file := [Message(ACK, reqId, BeginReply(reqId, path, n))] + Chunks(reqId, c.fs.files[path], size);
            && (Queued(c.link, r.link, file + [End(reqId)]) <==> need + 23 <= MAX_WRITE_QUEUE)
            && (Queued(c.link, r.link, file) <==> need <= MAX_WRITE_QUEUE < need + 23)
            && (QueuedPart(c.link, r.link, file) <==> need > MAX_WRITE_QUEUE)
            && (r.tally.completes == c.tally.completes + 1 <==> need <= MAX_WRITE_QUEUE)
            && (!r.link.closed <==> need + 23 <= MAX_WRITE_QUEUE)
  {
    hide Send, SendError, GetChunks, BeginReply, Abort, ChunkSize, PATH, Kv.Copy, LinkOk, ProcOk, UploadOk,
         FullService, End, CloseFd, Queued, QueuedPart, Chunks, EncodeMessage;
    var content, size := c.fs.files[path], ChunkSize(payload);
    var (fs, fd) := OpenForRead(c.fs, path, env);
    var d := IDLE.(path := Some(path), chunkSize := size, file := fd);
    var c1 := c.(fs := fs, download := d);
    var ack := Message(ACK, reqId, BeginReply(reqId, path, |content|));
    SendFits(c.link, ack, now, env);
    ChunkCountIsCeil(|content|, size);
    EndKind(reqId);
    var (l, sent) := Send(c.link, ack, now, env);
    var chunks := Chunks(reqId, content, size);
    ChunksNumber(reqId, content, size);
    SendQueues(c.link, ack, now, env);
    var c2 := c1.(download := d.(active := true, mode := Download, reqId := reqId, total := |content|,
                                 offset := 0, progress := now),
                  tally := Started(c.tally), link := l);
    var r := GetBegin(c, reqId, payload, now, env);
    var need := l.pending + Cost(|content|, size);
    if sent {
      ChunksFit(c2, content, now, env);
      assert content[0..] == content;
      QueuedOne(c.link, l, ack);
      FittedCons(c.(download := c2.download, tally := c2.tally), c2, r, ack, chunks, need);
    } else {
      QueuedNonePart(c.link, r.link, [ack] + chunks);
    }
    QueuedIff(c.link, r.link, [ack] + chunks, End(reqId));
  }

  /** Two lists of different length are not both what was queued. */
  lemma QueuedIff(l: Link, r: Link, ms: seq<Message>, last: Message)
    ensures Queued(l, r, ms) ==> |r.inflight| == |l.inflight| + |ms|
    ensures Queued(l, r, ms + [last]) ==> |r.inflight| == |l.inflight| + |ms| + 1
    ensures QueuedPart(l, r, ms) ==> |r.inflight| < |l.inflight| + |ms|
  {
  }

  // ---- The requested chunk size ----

  /** A request with a chunk size. */
  function SizedItems(path: bytes, n: nat): Items {
    [(Ascii("path"), path), (Ascii("chunk_size"), Decimal(n))]
  }

  /** A request without. */
  function PlainItems(path: bytes): Items {
    [(Ascii("path"), path)]
  }

  /** The chunk size a request asks for: a number from 1 to 65536 is taken as it is; zero, a larger one and a
      missing one stand for 4096. */
  lemma AskedSize(path: bytes, n: nat)
    requires UsableArg(path) && Kv.Clean(path)
    ensures var payload := EncodeKv(SizedItems(path, n));
            && Kv.Copy(payload, PATH(), PATH_CAP) == Some(path)
            && ChunkSize(payload) == if 1 <= n <= 65536 then n else 4096
  {
    hide Kv.Lookup, EncodeKv, ParseU64, Ascii;
    SizedEncodable(path, n);
    var items := SizedItems(path, n);
    EncodedPresent(items, 0);
    EncodedPresent(items, 1);
    DecimalRead(n);
  }

  lemma DecimalRead(n: nat)
    ensures ParseU64(Decimal(n)) == if n < TWO_64 then Some(n) else None
    ensures n < TWO_64 ==> |Decimal(n)| < 64
  {
    DecimalValue(n);
    if n < TWO_64 {
      ParseDecimal(n);
      DecimalU64Fits(n);
    }
  }

  lemma SizedEncodable(path: bytes, n: nat)
    requires Kv.Clean(path)
    ensures Encodable(SizedItems(path, n)) && Encodable(PlainItems(path))
    ensures KvLaws.IsKey(CHUNK_SIZE()) && CHUNK_SIZE() != PATH()
    ensures SizedItems(path, n) == [(PATH(), path), (CHUNK_SIZE(), Decimal(n))] && PlainItems(path) == [(PATH(), path)]
  {
    WordIsKey("path");
    WordIsKey("chunk_size");
    var items, size := SizedItems(path, n), Decimal(n);
    assert items[0].0[0] != items[1].0[0];
  }

  lemma AskedNoSize(path: bytes)
    requires UsableArg(path) && Kv.Clean(path)
    ensures var payload := EncodeKv(PlainItems(path));
            Kv.Copy(payload, PATH(), PATH_CAP) == Some(path) && ChunkSize(payload) == 4096
  {
    hide Kv.Lookup, EncodeKv, ParseU64, Ascii;
    SizedEncodable(path, 0);
    EncodedPresent(PlainItems(path), 0);
    EncodedAbsent(PlainItems(path), CHUNK_SIZE());
  }

  /** The chunks of a download that fits, with full reads and writes: for a requested size from 1 to 65536
      the file is cut into pieces of that size; for any other request, or none, into pieces of 4096. */
  lemma ChunksAsAsked(c: Core, reqId: u32, path: bytes, n: Option<nat>, now: nat, env: Env)
    requires CoreOk(c, now) && !c.link.closed && FullService(env)
    requires UsableArg(path) && Kv.Clean(path) && path in c.fs.files
    requires env.openOk && env.fd !in c.fs.open && env.statOk
    requires |BeginReply(reqId, path, |c.fs.files[path]|)| < REPLY_CAP
    ensures var payload := EncodeKv(if n.Some? then SizedItems(path, n.value) else PlainItems(path));
            var size := if n.Some? && 1 <= n.value <= 65536 then n.value else 4096;
            var content, r := c.fs.files[path], GetBegin(c, reqId, payload, now, env);
            var ack := Message(ACK, reqId, BeginReply(reqId, path, |content|));
            var need := c.link.pending + WireSize(ack) + |content| + HEADER_SIZE * ((|content| + size - 1) / size);
            Queued(c.link, r.link,
                   [ack] + ChunkMessages(GET_CHUNK, reqId, Slices(content, size)) + [End(reqId)])
            <==> need + 23 <= MAX_WRITE_QUEUE
  {
    hide GetBegin, Kv.Copy, PATH, CoreOk, FullService, BeginReply, ChunkSize, Queued, QueuedPart, End, Slices, EncodeKv,
         SizedItems, PlainItems;
    var payload := EncodeKv(if n.Some? then SizedItems(path, n.value) else PlainItems(path));
    if n.Some? {
      AskedSize(path, n.value);
    } else {
      AskedNoSize(path);
    }
    DownloadThreshold(c, reqId, payload, path, now, env);
  }

  // ---- When get_file succeeds ----

  lemma {:induction false} NoEndNoFile(ms: seq<Message>)
    requires forall m <- ms :: m.kind != GET_END
    ensures Collected(ms) == None
  {
    if ms != [] {
      NoEndNoFile(ms[1..]);
    }
  }

  lemma {:induction false} StreamWithin(ms: seq<Message>, reqId: u32)
    ensures forall m <- StreamOf(ms, reqId) :: m in ms && IsStream(m.kind) && m.reqId == reqId
  {
    if ms != [] {
      StreamWithin(ms[..|ms| - 1], reqId);
    }
  }

  /** The messages that a client parses once these were queued. */
  lemma QueuedSeen(l: Link, r: Link, earlier: seq<Message>, ms: seq<Message>)
    requires (forall m <- earlier :: ValidMessage(m)) && l.inflight == EncodeEach(earlier) && Queued(l, r, ms)
    ensures Parse(Concat(r.inflight)) == Parsed(earlier + ms, [], false)
  {
    hide EncodeMessage, Parse;
    EncodeEachAppend(earlier, ms);
    ConcatEncoded(earlier + ms);
    ParseEncoded(earlier + ms);
  }

  /** No file comes out of an announcement and chunks alone. */
  lemma NothingCollected(earlier: seq<Message>, ms: seq<Message>, reqId: u32)
    requires Foreign(earlier, reqId) && forall m <- ms :: m.kind != GET_END
    ensures Collected(StreamOf(earlier + ms, reqId)) == None
  {
    hide Collected, StreamOf;
    StreamAppend(earlier, ms, reqId);
    ForeignStream(earlier, reqId);
    StreamWithin(ms, reqId);
    assert [] + StreamOf(ms, reqId) == StreamOf(ms, reqId);
    NoEndNoFile(StreamOf(ms, reqId));
  }

  /** The whole file comes out of announcement, chunks and end. */
  lemma FileCollected(earlier: seq<Message>, reqId: u32, reply: bytes, content: bytes, size: nat)
    requires Foreign(earlier, reqId) && size >= 1
    ensures var ms := [Message(ACK, reqId, reply)] + Chunks(reqId, content, size) + [End(reqId)];
            Collected(StreamOf(earlier + ms, reqId)) == Some(content)
  {
    hide Collected, StreamOf, End, Slices;
    var ack, chunks := Message(ACK, reqId, reply), Chunks(reqId, content, size);
    EndKind(reqId);
    StreamAppend(earlier, [ack] + chunks + [End(reqId)], reqId);
    ForeignStream(earlier, reqId);
    StreamAppend([ack] + chunks, [End(reqId)], reqId);
    StreamAppend([ack], chunks, reqId);
    OneStream(ack, reqId);
    OneStream(End(reqId), reqId);
    ChunkStream(reqId, Slices(content, size));
    assert StreamOf(earlier + ([ack] + chunks + [End(reqId)]), reqId) == chunks + [End(reqId)];
    CollectChunks(reqId, Slices(content, size), End(reqId));
    SlicesConcat(content, size);
  }

  /** What the client's collector gets from one GET_BEGIN, in terms of the queue alone. */
  lemma BeginDecides(c: Core, reqId: u32, payload: bytes, path: bytes, earlier: seq<Message>, now: nat, env: Env)
    requires CoreOk(c, now) && !c.link.closed && FullService(env)
    requires Kv.Copy(payload, PATH(), PATH_CAP) == Some(path) && path in c.fs.files
    requires env.openOk && env.fd !in c.fs.open && env.statOk
    requires |BeginReply(reqId, path, |c.fs.files[path]|)| < REPLY_CAP
    requires (forall m <- earlier :: ValidMessage(m)) && c.link.inflight == EncodeEach(earlier)
    requires Foreign(earlier, reqId)
    ensures var r := GetBegin(c, reqId, payload, now, env);
            var n, size := |c.fs.files[path]|, ChunkSize(payload);
            var need := c.link.pending + (HEADER_SIZE + |BeginReply(reqId, path, n)|)
                        + n + HEADER_SIZE * ((n + size - 1) / size);
            Collected(StreamOf(Parse(Concat(r.link.inflight)).messages, reqId))
            == if need + 23 <= MAX_WRITE_QUEUE then Some(c.fs.files[path]) else None
  {
    hide GetBegin, Kv.Copy, PATH, CoreOk, FullService, BeginReply, ChunkSize, Queued, Parse, StreamOf, Collected,
         Foreign, End, Slices, EncodeMessage;
    DownloadThreshold(c, reqId, payload, path, now, env);
    var r := GetBegin(c, reqId, payload, now, env);
    var content, size := c.fs.files[path], ChunkSize(payload);
    var reply := BeginReply(reqId, path, |content|);
    var file := [Message(ACK, reqId, reply)] + Chunks(reqId, content, size);
    if Queued(c.link, r.link, file + [End(reqId)]) {
      QueuedSeen(c.link, r.link, earlier, file + [End(reqId)]);
      FileCollected(earlier, reqId, reply, content, size);
    } else {
      var sent := if Queued(c.link, r.link, file) then file else PartSent(c.link, r.link, file);
      QueuedSeen(c.link, r.link, earlier, sent);
      NothingCollected(earlier, sent, reqId);
    }
  }

  ghost function PartSent(l: Link, r: Link, ms: seq<Message>): (part: seq<Message>)
    requires QueuedPart(l, r, ms)
    ensures Queued(l, r, part) && forall m <- part :: m in ms
  {
    hide Queued;
    var k :| 0 <= k < |ms| && Queued(l, r, ms[..k]);
    ms[..k]
  }

  lemma AskedChunk(path: bytes)
    requires UsableArg(path) && Kv.Clean(path)
    ensures ChunkSize(EncodeKv(GetItems(path))) == CHUNK
  {
    hide EncodeKv, ChunkSize, Kv.Copy;
    AskedSize(path, CHUNK);
  }

  /** get_file succeeds exactly: from any reachable open session that is between frames and has no
      stream frame with the request's id in flight, with an existing file whose announcement fits its
      reply, and calls that succeed: the client gets the file if the bytes pending, the announcement,
      the file and 14 bytes per 4096, and the 23 bytes of GET_END fit in 262144, and nothing if they
      do not. */
  lemma DownloadExactly(w: World, reqId: u32, path: bytes, now: nat, env: Oracle)
    requires Reachable(w) && !w.core.link.closed && w.rx == [] && w.clock <= now
    requires UsableArg(path) && Kv.Clean(path) && path in w.core.fs.files
    requires Foreign(InFlight(w.core.link), reqId)
    requires var answer := env(w.core.framesRx);
             FullService(answer) && answer.openOk && answer.fd !in w.core.fs.open && answer.statOk
    requires |BeginReply(reqId, path, |w.core.fs.files[path]|)| < REPLY_CAP
    ensures ValidMessage(GetRequest(reqId, path))
    ensures var s := Step(w, now, ReadBytes(EncodeMessage(GetRequest(reqId, path)), env));
            var file := w.core.fs.files[path];
            var need := w.core.link.pending + HEADER_SIZE + |BeginReply(reqId, path, |file|)|
                        + |file| + HEADER_SIZE * ((|file| + 4095) / 4096);
            Collected(StreamOf(Parse(Concat(s.core.link.inflight)).messages, reqId))
            == if need + 23 <= MAX_WRITE_QUEUE then Some(file) else None
  {
    hide Reachable, Step, GetBegin, EncodeKv, GetItems, Parse, StreamOf, Collected, End, EncodeMessage, Kv.Copy,
         LinkOk, ProcOk, UploadOk, IsFrame, FullService, BeginReply, ChunkSize, Foreign, InFlight;
    RequestIsRead(w, reqId, path, now, env);
    GetReadBack(path);
    AskedChunk(path);
    ReachableOk(w);
    Later(w.core, w.clock, now);
    HeardKeeps(w.core.link, w.core.proc, now);
    NoDownload(w.core, w.clock);
    InFlightEncoded(w.core.link);
    var c1 := w.core.(link := w.core.link.(lastRx := now));
    var c2 := c1.(framesRx := c1.framesRx + 1, bytesRx := c1.bytesRx + WireSize(GetRequest(reqId, path)));
    BeginDecides(c2, reqId, EncodeKv(GetItems(path)), path, InFlight(w.core.link), now, env(c1.framesRx));
  }
}
