/** End-to-end upload: what put_file of tools/client_daemon.py sends, cut into reads in any way, ends
    as exactly the file's bytes at the destination. */
module EndToEnd {
  import opened Bytes
  import opened Frame
  import opened Stream
  import opened SessionState
  import opened Transfers
  import opened Protocol
  import opened Server
  import opened Lifetime
  import opened Invariants
  import opened Runs
  import opened Argv
  import opened Client
  import opened KvLaws
  import Kv

  /** Deliveries to the session: a read, or the completion of a write, at some time. */
  datatype Item = Chunk(data: bytes, at: nat, oracle: Oracle) | Drain(at: nat)

  /** A chunk that arrives after the socket was closed is lost. */
  function Take(w: World, item: Item): World {
    match item
    case Chunk(data, at, oracle) =>
      if w.core.link.tcp == Open then Step(w, at, ReadBytes(data, oracle)) else w
    case Drain(at) =>
      if w.core.link.inflight != [] then Step(w, at, WriteCompleted) else w
  }

  function TakeAll(w: World, items: seq<Item>): World
    decreases |items|
  {
    if items == [] then w else TakeAll(Take(w, items[0]), items[1..])
  }

  function BytesOf(items: seq<Item>): bytes {
    if items == [] then []
    else (if items[0].Chunk? then items[0].data else []) + BytesOf(items[1..])
  }

  /** The file calls of an upload succeed: open, whole writes, close and rename. */
  ghost predicate FilesWork(env: Oracle) {
    forall k: nat :: env(k).openOk && env(k).written >= MAX_FRAME_PAYLOAD && env(k).closeOk && env(k).renameOk
  }

  ghost predicate Fragments(items: seq<Item>) {
    forall i :: 0 <= i < |items| ==>
      items[i].Chunk? ==> 1 <= |items[i].data| <= READ_CHUNK && FilesWork(items[i].oracle)
  }

  /** What the destination path and the data must satisfy for put_file to get a positive reply. */
  predicate Uploadable(reqId: u32, path: bytes, data: bytes) {
    path != [] && Kv.Clean(path) && |data| < TWO_63 && |BeginReply(reqId, path, |data|)| < REPLY_CAP
  }

  // ---- The request, read by the agent ----

  lemma PutItemsEncodable(path: bytes, size: nat)
    requires Kv.Clean(path)
    ensures Encodable(PutItems(path, size))
    ensures PutItems(path, size)[0].0 == PATH() && PutItems(path, size)[1].0 == SIZE()
  {
    var items := PutItems(path, size);
    WordIsKey("path");
    WordIsKey("size");
    WordIsKey("overwrite");
    var one := Ascii("1");
    assert one[0] == 49;
    assert items[0].0[0] != items[1].0[0] && items[0].0[0] != items[2].0[0] && items[1].0[0] != items[2].0[0];
  }

  lemma ReplyBounds(reqId: u32, path: bytes, data: bytes)
    requires Uploadable(reqId, path, data)
    ensures |path| < REPLY_CAP && |Decimal(|data|)| <= 20
  {
    DecimalU64Fits(|data|);
  }

  /** PUT_BEGIN of put_file gives back the path and the size. */
  lemma BeginReadBack(reqId: u32, path: bytes, data: bytes)
    requires Uploadable(reqId, path, data)
    ensures var payload := EncodeKv(PutItems(path, |data|));
            && Kv.Copy(payload, PATH(), PATH_CAP) == Some(path)
            && Kv.CopyU64(payload, SIZE()) == Some(|data|)
  {
    hide EncodeKv, Kv.Lookup, BeginReply, PATH, SIZE, PutItems, Encodable;
    PutItemsEncodable(path, |data|);
    ReplyBounds(reqId, path, data);
    ItemValues(path, |data|);
    var items := PutItems(path, |data|);
    EncodedPresent(items, 0);
    EncodedPresent(items, 1);
    ParseDecimal(|data|);
  }

  lemma ItemValues(path: bytes, size: nat)
    ensures var items := PutItems(path, size);
            |items| == 3 && items[0].1 == path && items[1].1 == Decimal(size)
  {
  }

  lemma BeginSize(path: bytes, size: nat)
    ensures |EncodeKv(PutItems(path, size))| == |path| + |Decimal(size)| + 23
  {
    var lines := ItemLines(PutItems(path, size));
    assert |lines| == 3;
    assert |lines[0]| == 5 + |path| && |lines[1]| == 5 + |Decimal(size)| && |lines[2]| == 11;
    var two := lines[1..];
    assert two[0] == lines[1] && two[1..] == [lines[2]];
    assert |Join(two)| == |lines[1]| + 1 + |lines[2]|;
  }

  // ---- Progress of the upload ----

  predicate Ready(c: Core, reqId: u32, path: bytes, data: bytes) {
    && !c.link.closed && c.link.tcp == Open && c.upload == IDLE && c.fs.open == map[]
    && c.link.pending + HEADER_SIZE + |BeginReply(reqId, path, |data|)| <= MAX_WRITE_QUEUE
  }

  predicate Taking(c: Core, reqId: u32, path: bytes, size: nat, got: bytes) {
    var u := c.upload;
    && !c.link.closed && c.link.tcp == Open
    && u.active && u.mode == Upload && u.reqId == reqId && u.total == size && u.offset == |got|
    && u.path == Some(path) && u.tmp == Some(Part(path))
    && u.file in c.fs.open && c.fs.open[u.file] == Part(path)
    && Part(path) in c.fs.files && c.fs.files[Part(path)] == got
  }

  predicate Stored(c: Core, path: bytes, data: bytes) {
    path in c.fs.files && c.fs.files[path] == data && c.upload == IDLE
  }

  /** After the first i frames of put_file. */
  predicate Reached(c: Core, reqId: u32, path: bytes, data: bytes, i: nat) {
    var parts := ChunksOf(data);
    if i == 0 then Ready(c, reqId, path, data)
    else if i <= |parts| + 1 then Taking(c, reqId, path, |data|, Concat(parts[..i - 1]))
    else Stored(c, path, data)
  }

  lemma TakesBegin(c: Core, reqId: u32, path: bytes, data: bytes, now: nat, env: Env)
    requires Uploadable(reqId, path, data) && Ready(c, reqId, path, data) && env.openOk
    ensures Taking(PutBegin(c, reqId, EncodeKv(PutItems(path, |data|)), now, env), reqId, path, |data|, [])
  {
    hide EncodeKv, PutItems, Kv.Copy, Kv.CopyU64, Kv.CopyU64Or, PATH, SIZE, OVERWRITE, CHUNK_SIZE, ONE,
         BeginReply, Part, EncodeMessage;
    BeginReadBack(reqId, path, data);
  }

  lemma TakesChunk(c: Core, reqId: u32, path: bytes, size: nat, got: bytes, part: bytes, now: nat, env: Env)
    requires Taking(c, reqId, path, size, got) && |got| + |part| <= size < TWO_63
    requires |part| <= MAX_FRAME_PAYLOAD <= env.written
    ensures Taking(PutChunk(c, reqId, part, now, env), reqId, path, size, got + part)
  {
    hide Part, Send;
    assert part[..|part|] == part;
  }

  lemma TakesEnd(c: Core, reqId: u32, path: bytes, data: bytes, now: nat, env: Env)
    requires Uploadable(reqId, path, data) && Taking(c, reqId, path, |data|, data)
    requires env.closeOk && env.renameOk
    ensures Stored(PutEnd(c, reqId, now, env), path, data)
  {
    hide Send, BeginReply, EndReply, EncodeMessage;
    EndReplyShorter(reqId, path, |data|);
    assert Part(path) != path;
  }

  lemma {:induction false} ConcatPrefix(parts: seq<bytes>, k: nat)
    requires k < |parts|
    ensures Concat(parts[..k + 1]) == Concat(parts[..k]) + parts[k]
    ensures |Concat(parts[..k + 1])| <= |Concat(parts)|
  {
    assert parts[..k + 1] == parts[..k] + [parts[k]];
    ConcatAppend(parts[..k], [parts[k]]);
    var one: seq<bytes> := [parts[k]];
    assert one[1..] == [];
    assert Concat(one) == parts[k];
    assert parts == parts[..k + 1] + parts[k + 1..];
    ConcatAppend(parts[..k + 1], parts[k + 1..]);
  }

  lemma ChunksOfConcat(data: bytes)
    ensures Concat(ChunksOf(data)) == data
    ensures forall i :: 0 <= i < |ChunksOf(data)| ==> 1 <= |ChunksOf(data)[i]| <= CHUNK
  {
    SlicesConcat(data, CHUNK);
  }

  lemma PutMessageAt(reqId: u32, path: bytes, data: bytes, i: nat)
    requires i < |PutMessages(reqId, path, data)|
    ensures var ms, parts := PutMessages(reqId, path, data), ChunksOf(data);
            && |ms| == |parts| + 2
            && ms[i] == if i == 0 then Message(PUT_BEGIN, reqId, EncodeKv(PutItems(path, |data|)))
                        else if i <= |parts| then Message(PUT_CHUNK, reqId, parts[i - 1])
                        else Message(PUT_END, reqId, [])
  {
    hide EncodeKv, PutItems, ChunksOf;
  }

  /** One frame of put_file takes the upload one step further. */
  lemma FrameStep(c: Core, reqId: u32, path: bytes, data: bytes, i: nat, now: nat, env: Oracle)
    requires Uploadable(reqId, path, data) && i < |PutMessages(reqId, path, data)|
    requires Reached(c, reqId, path, data, i) && FilesWork(env)
    ensures Reached(Receive(c, PutMessages(reqId, path, data)[i], now, env), reqId, path, data, i + 1)
  {
    hide EncodeKv, PutItems, ChunksOf, PutMessages, Uploadable, PutBegin, PutChunk, PutEnd, BeginReply, Part;
    var parts := ChunksOf(data);
    PutMessageAt(reqId, path, data, i);
    ChunksOfConcat(data);
    var m := PutMessages(reqId, path, data)[i];
    var c1 := c.(framesRx := c.framesRx + 1, bytesRx := c.bytesRx + WireSize(m));
    var answer := env(c.framesRx);
    if i == 0 {
      TakesBegin(c1, reqId, path, data, now, answer);
      assert parts[..0] == [];
    } else if i <= |parts| {
      ConcatPrefix(parts, i - 1);
      DataBound(reqId, path, data);
      TakesChunk(c1, reqId, path, |data|, Concat(parts[..i - 1]), parts[i - 1], now, answer);
    } else {
      assert parts[..i - 1] == parts;
      TakesEnd(c1, reqId, path, data, now, answer);
    }
  }

  lemma DataBound(reqId: u32, path: bytes, data: bytes)
    requires Uploadable(reqId, path, data)
    ensures |data| < TWO_63
  {
  }

  lemma {:induction false} FramesStep(c: Core, reqId: u32, path: bytes, data: bytes, i: nat, j: nat,
                                      now: nat, env: Oracle)
    requires Uploadable(reqId, path, data) && i <= j <= |PutMessages(reqId, path, data)|
    requires Reached(c, reqId, path, data, i) && FilesWork(env)
    ensures Reached(ReceiveAll(c, PutMessages(reqId, path, data)[i..j], now, env), reqId, path, data, j)
    decreases j - i
  {
    hide PutMessages, Uploadable, Receive, Reached, FilesWork;
    var ms := PutMessages(reqId, path, data);
    if i < j {
      FrameStep(c, reqId, path, data, i, now, env);
      assert ms[i..j][0] == ms[i] && ms[i..j][1..] == ms[i + 1..j];
      FramesStep(Receive(c, ms[i], now, env), reqId, path, data, i + 1, j, now, env);
    }
  }

  // ---- Any fragmentation ----

  /** The session has dispatched the first i frames; buffer and coming bytes hold exactly the rest. */
  predicate Awaiting(w: World, coming: bytes, reqId: u32, path: bytes, data: bytes, i: nat) {
    var ms := PutMessages(reqId, path, data);
    && i <= |ms| && Reached(w.core, reqId, path, data, i)
    && Parse(w.rx + coming) == Parsed(ms[i..], [], false)
    && !Overlong(w.rx + coming)
    && First(w.rx).Incomplete?
  }

  /** One read takes in some of the frames, whatever it cuts. */
  lemma ReadStep(w: World, chunk: bytes, more: bytes, reqId: u32, path: bytes, data: bytes, i: nat,
                 now: nat, env: Oracle) returns (j: nat)
    requires Uploadable(reqId, path, data) && FilesWork(env) && 1 <= |chunk| <= READ_CHUNK
    requires Awaiting(w, chunk + more, reqId, path, data, i) && i < |PutMessages(reqId, path, data)|
    ensures Awaiting(Step(w, now, ReadBytes(chunk, env)), more, reqId, path, data, j)
  {
    hide PutMessages, Uploadable, Reached, FilesWork, Parse, Overlong, First, ReceiveAll;
    var ms := PutMessages(reqId, path, data);
    var a := w.rx + chunk;
    assert w.rx + (chunk + more) == a + more;
    NoOverflow(w.rx, chunk, more);
    ParseAppend(a, more);
    ParseSizes(a);
    var p := Parse(a);
    if p.bad {
      assert Parse(a + more).bad;
    }
    OverlongAfterParse(a, more);
    var later := Parse(p.rest + more);
    j := i + |p.messages|;
    assert p.messages + later.messages == ms[i..];
    assert p.messages == ms[i..][..|p.messages|] == ms[i..j];
    assert later.messages == ms[i..][|p.messages|..] == ms[j..];
    var c1 := w.core.(link := w.core.link.(lastRx := now));
    HeardReached(w.core, reqId, path, data, i, now);
    FramesStep(c1, reqId, path, data, i, j, now, env);
  }

  lemma HeardReached(c: Core, reqId: u32, path: bytes, data: bytes, i: nat, now: nat)
    requires Reached(c, reqId, path, data, i)
    ensures Reached(c.(link := c.link.(lastRx := now)), reqId, path, data, i)
  {
    hide BeginReply, Part, ChunksOf;
  }

  lemma NoOverflow(rx: bytes, chunk: bytes, more: bytes)
    requires First(rx).Incomplete? && |chunk| <= READ_CHUNK && !Overlong(rx + (chunk + more))
    ensures |rx| + |chunk| <= RX_CAP
  {
    hide First, Overlong, Parse;
    if |rx| + |chunk| > RX_CAP {
      var chunks: seq<bytes> := [chunk] + Pieces(more);
      ConcatAppend([chunk], Pieces(more));
      var one: seq<bytes> := [chunk];
      assert one[1..] == [];
      assert Concat(one) == chunk;
      DeliverCons(rx, chunk, Pieces(more));
      OverflowNeedsOverlong(rx, chunks);
    }
  }

  /** A completed write changes nothing that matters here. */
  lemma DrainStep(w: World, coming: bytes, reqId: u32, path: bytes, data: bytes, i: nat, now: nat)
    requires Awaiting(w, coming, reqId, path, data, i) && w.core.link.inflight != []
    ensures Awaiting(Step(w, now, WriteCompleted), coming, reqId, path, data, i)
  {
    hide BeginReply, Part, ChunksOf, Parse, Overlong, First, PutMessages;
  }

  lemma {:induction false} ItemsStep(w: World, items: seq<Item>, reqId: u32, path: bytes, data: bytes, i: nat)
    requires Uploadable(reqId, path, data) && Fragments(items)
    requires Awaiting(w, BytesOf(items), reqId, path, data, i)
    ensures Stored(TakeAll(w, items).core, path, data)
    decreases |items|
  {
    hide PutMessages, Uploadable, Reached, FilesWork, Parse, Overlong, First, Step, Stored;
    var ms := PutMessages(reqId, path, data);
    if items == [] {
      AllDone(w, reqId, path, data, i);
    } else {
      var item, rest := items[0], items[1..];
      assert Fragments(rest);
      if item.Drain? {
        assert BytesOf(items) == BytesOf(rest);
        if w.core.link.inflight != [] {
          DrainStep(w, BytesOf(rest), reqId, path, data, i, item.at);
        }
        ItemsStep(Take(w, item), rest, reqId, path, data, i);
      } else {
        assert BytesOf(items) == item.data + BytesOf(rest);
        StillOpen(w, item.data + BytesOf(rest), reqId, path, data, i);
        var j := ReadStep(w, item.data, BytesOf(rest), reqId, path, data, i, item.at, item.oracle);
        ItemsStep(Take(w, item), rest, reqId, path, data, j);
      }
    }
  }

  /** With no bytes to come every frame has been dispatched. */
  lemma AllDone(w: World, reqId: u32, path: bytes, data: bytes, i: nat)
    requires Awaiting(w, [], reqId, path, data, i)
    ensures Stored(w.core, path, data)
  {
    hide Overlong, PutMessages, BeginReply, Part, ChunksOf, First;
    var ms := PutMessages(reqId, path, data);
    assert w.rx + [] == w.rx;
    assert ms[i..] == [];
    MessageCount(reqId, path, data);
  }

  lemma MessageCount(reqId: u32, path: bytes, data: bytes)
    ensures |PutMessages(reqId, path, data)| == |ChunksOf(data)| + 2
  {
    hide EncodeKv, PutItems, ChunksOf;
  }

  /** While bytes are to come, frames are to come, and the session is open to take them. */
  lemma StillOpen(w: World, coming: bytes, reqId: u32, path: bytes, data: bytes, i: nat)
    requires Awaiting(w, coming, reqId, path, data, i) && coming != []
    ensures i < |PutMessages(reqId, path, data)| && w.core.link.tcp == Open
  {
    hide Overlong, PutMessages, BeginReply, Part, ChunksOf, First;
    var ms := PutMessages(reqId, path, data);
    MessageCount(reqId, path, data);
    if i == |ms| {
      assert ms[i..] == [];
      assert Parse(w.rx + coming).messages == [];
      NoMessagesNoBytes(w.rx + coming);
    }
  }

  lemma NoMessagesNoBytes(b: bytes)
    requires Parse(b) == Parsed([], [], false)
    ensures b == []
  {
    hide First;
  }

  // ---- The theorem ----

  lemma PutMessagesShort(reqId: u32, path: bytes, data: bytes)
    requires Uploadable(reqId, path, data)
    ensures forall m <- PutMessages(reqId, path, data) :: ValidMessage(m) && WireSize(m) <= SAFE_FRAME
  {
    hide EncodeKv, PutItems, ChunksOf, BeginReply, PutMessages;
    var ms := PutMessages(reqId, path, data);
    ReplyBounds(reqId, path, data);
    BeginSize(path, |data|);
    ChunksOfConcat(data);
    forall i | 0 <= i < |ms| ensures ValidMessage(ms[i]) && WireSize(ms[i]) <= SAFE_FRAME {
      PutMessageAt(reqId, path, data, i);
    }
  }

  /** The bytes put_file sends. */
  ghost function PutStream(reqId: u32, path: bytes, data: bytes): bytes
    requires Uploadable(reqId, path, data)
  {
    PutMessagesShort(reqId, path, data);
    EncodeAll(PutMessages(reqId, path, data))
  }

  /** From any reachable state with an open session, an empty buffer, no upload in progress and room
      in the queue for one reply: for every data, every clean path for which the announcement fits
      its reply, every way to cut put_file's bytes into reads of 1 to 4096 bytes, with write
      completions in between, and file calls that succeed, the session ends with exactly the data at
      the path and an idle slot. */
  lemma UploadEndToEnd(w: World, items: seq<Item>, reqId: u32, path: bytes, data: bytes)
    requires Reachable(w) && !w.core.link.closed && !w.core.upload.active && w.rx == []
    requires Uploadable(reqId, path, data) && Fragments(items)
    requires w.core.link.pending + HEADER_SIZE + |BeginReply(reqId, path, |data|)| <= MAX_WRITE_QUEUE
    requires BytesOf(items) == PutStream(reqId, path, data)
    ensures Stored(TakeAll(w, items).core, path, data)
  {
    hide PutMessages, Uploadable, FilesWork, Parse, Overlong, Ready, Fragments, Stored, TakeAll, Reachable,
         BeginReply, First;
    var ms := PutMessages(reqId, path, data);
    PutMessagesShort(reqId, path, data);
    ParseEncoded(ms);
    ShortFramesNotOverlong(ms);
    assert w.rx + BytesOf(items) == EncodeAll(ms);
    assert ms[0..] == ms;
    ReadyWhenIdle(w, reqId, path, data);
    ItemsStep(w, items, reqId, path, data, 0);
  }

  lemma ReadyWhenIdle(w: World, reqId: u32, path: bytes, data: bytes)
    requires Reachable(w) && !w.core.link.closed && !w.core.upload.active
    requires w.core.link.pending + HEADER_SIZE + |BeginReply(reqId, path, |data|)| <= MAX_WRITE_QUEUE
    ensures Ready(w.core, reqId, path, data) && First(w.rx).Incomplete?
  {
    hide Reachable, ProcOk, BeginReply, First;
    ReachableOk(w);
  }
}
