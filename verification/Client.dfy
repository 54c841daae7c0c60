/** tools/client_daemon.py: what the client sends for an upload, how it sorts what it receives, and
    how it puts a download together. */
module Client {
  import opened Bytes
  import opened Frame
  import opened Stream
  import opened Argv
  import Kv
  import KvLaws

  const CHUNK: nat := 4096

  // ---- put_file ----

  function PutItems(path: bytes, size: nat): Items {
    [(Ascii("path"), path), (Ascii("size"), Decimal(size)), (Ascii("overwrite"), Ascii("1"))]
  }

  /** A byte string cut into pieces of the given size; the last one may be shorter. */
  function Slices(data: bytes, size: nat): seq<bytes>
    requires size >= 1
  {
    if data == [] then [] else [data[..Min(size, |data|)]] + Slices(data[Min(size, |data|)..], size)
  }

  lemma {:induction false} SlicesConcat(data: bytes, size: nat)
    requires size >= 1
    ensures Concat(Slices(data, size)) == data
    ensures forall i :: 0 <= i < |Slices(data, size)| ==> 1 <= |Slices(data, size)[i]| <= size
  {
    if data != [] {
      var n := Min(size, |data|);
      SlicesConcat(data[n..], size);
      assert Slices(data, size)[1..] == Slices(data[n..], size);
      assert data == data[..n] + data[n..];
    }
  }

  function ChunksOf(data: bytes): seq<bytes> {
    Slices(data, CHUNK)
  }

  function ChunkMessages(kind: byte, reqId: u32, parts: seq<bytes>): (ms: seq<Message>)
    ensures |ms| == |parts|
    ensures forall i :: 0 <= i < |parts| ==> ms[i] == Message(kind, reqId, parts[i])
  {
    seq(|parts|, i requires 0 <= i < |parts| => Message(kind, reqId, parts[i]))
  }

  /** The frames of put_file, in order. */
  function PutMessages(reqId: u32, path: bytes, data: bytes): seq<Message> {
    [Message(PUT_BEGIN, reqId, EncodeKv(PutItems(path, |data|)))]
    + ChunkMessages(PUT_CHUNK, reqId, ChunksOf(data))
    + [Message(PUT_END, reqId, [])]
  }

  lemma {:induction false} ChunksOfSnoc(data: bytes, off: nat)
    requires off < |data| && off % CHUNK == 0
    ensures var end := Min(off + CHUNK, |data|);
            ChunksOf(data[..end]) == ChunksOf(data[..off]) + [data[off..end]]
    decreases off
  {
    var end := Min(off + CHUNK, |data|);
    if off == 0 {
      assert data[..end][end..] == [];
      assert data[..end][..end] == data[0..end];
      assert data[..0] == [];
    } else {
      assert off >= CHUNK;
      assert data[..end][..CHUNK] == data[..off][..CHUNK];
      assert data[..end][CHUNK..] == data[CHUNK..][..end - CHUNK];
      assert data[..off][CHUNK..] == data[CHUNK..][..off - CHUNK];
      ChunksOfSnoc(data[CHUNK..], off - CHUNK);
      assert data[CHUNK..][off - CHUNK..end - CHUNK] == data[off..end];
    }
  }

  /** The sending loops of put_file. */
  method PutFile(reqId: u32, path: bytes, data: bytes) returns (sent: seq<Message>)
    ensures sent == PutMessages(reqId, path, data)
  {
    hide EncodeKv, PutItems;
    var begin := EncodeItems(PutItems(path, |data|));
    sent := [Message(PUT_BEGIN, reqId, begin)];
    var off := 0;
    ghost var parts: seq<bytes> := [];
    assert data[..0] == [];
    while off < |data|
      invariant 0 <= off <= |data| && (off % CHUNK == 0 || off == |data|)
      invariant parts == ChunksOf(data[..off])
      invariant sent == [Message(PUT_BEGIN, reqId, begin)] + ChunkMessages(PUT_CHUNK, reqId, parts)
    {
      var end := if off + CHUNK <= |data| then off + CHUNK else |data|;
      ChunksOfSnoc(data, off);
      sent := sent + [Message(PUT_CHUNK, reqId, data[off..end])];
      parts := parts + [data[off..end]];
      off := end;
    }
    assert data[..off] == data;
    sent := sent + [Message(PUT_END, reqId, [])];
  }

  // ---- _reader and get_file ----

  function GetItems(path: bytes): Items {
    [(Ascii("path"), path), (Ascii("chunk_size"), Decimal(CHUNK))]
  }

  function GetRequest(reqId: u32, path: bytes): Message {
    Message(GET_BEGIN, reqId, EncodeKv(GetItems(path)))
  }

  predicate IsStream(kind: byte) {
    kind == STDOUT || kind == STDERR || kind == EXIT || kind == GET_CHUNK || kind == GET_END
  }

  /** The stream frames of one request, in the order received. */
  function StreamOf(ms: seq<Message>, reqId: u32): seq<Message> {
    if ms == [] then []
    else
      var front := StreamOf(ms[..|ms| - 1], reqId);
      var m := ms[|ms| - 1];
      if IsStream(m.kind) && m.reqId == reqId then front + [m] else front
  }

  /** The latest reply to one request. */
  function ReplyTo(ms: seq<Message>, reqId: u32): Option<Message> {
    if ms == [] then None
    else
      var m := ms[|ms| - 1];
      if m.kind != PING && !IsStream(m.kind) && m.reqId == reqId then Some(m)
      else ReplyTo(ms[..|ms| - 1], reqId)
  }

  function Pings(ms: seq<Message>): seq<u32> {
    if ms == [] then []
    else
      var m := ms[|ms| - 1];
      Pings(ms[..|ms| - 1]) + if m.kind == PING then [m.reqId] else []
  }

  /** _reader: pings are answered, stream frames are queued per request, and the rest are replies, of
      which the latest per request is kept. */
  method Demux(ms: seq<Message>)
    returns (streams: map<u32, seq<Message>>, pending: map<u32, Message>, pongs: seq<u32>)
    ensures forall r: u32 :: (if r in streams then streams[r] else []) == StreamOf(ms, r)
    ensures forall r: u32 :: (if r in pending then Some(pending[r]) else None) == ReplyTo(ms, r)
    ensures pongs == Pings(ms)
  {
    streams, pending, pongs := map[], map[], [];
    for i := 0 to |ms|
      invariant forall r: u32 :: (if r in streams then streams[r] else []) == StreamOf(ms[..i], r)
      invariant forall r: u32 :: (if r in pending then Some(pending[r]) else None) == ReplyTo(ms[..i], r)
      invariant pongs == Pings(ms[..i])
    {
      var m := ms[i];
      assert ms[..i + 1][..i] == ms[..i];
      if m.kind == PING {
        pongs := pongs + [m.reqId];
      } else if IsStream(m.kind) {
        var queue := if m.reqId in streams then streams[m.reqId] else [];
        streams := streams[m.reqId := queue + [m]];
      } else {
        pending := pending[m.reqId := m];
      }
    }
    assert ms[..|ms|] == ms;
  }

  function Prepend(front: bytes, rest: Option<bytes>): Option<bytes> {
    if rest.None? then None else Some(front + rest.value)
  }

  /** The file a list of stream frames amounts to: chunk payloads up to the first GET_END. */
  function Collected(items: seq<Message>): Option<bytes> {
    if items == [] then None
    else if items[0].kind == GET_END then Some([])
    else if items[0].kind == GET_CHUNK then Prepend(items[0].payload, Collected(items[1..]))
    else Collected(items[1..])
  }

  lemma PrependTwice(a: bytes, b: bytes, rest: Option<bytes>)
    ensures Prepend(a + b, rest) == Prepend(a, Prepend(b, rest))
    ensures Prepend([], rest) == rest
  {
    if rest.Some? {
      assert (a + b) + rest.value == a + (b + rest.value);
      assert [] + rest.value == rest.value;
    }
  }

  /** The receiving loop of get_file; nothing stands for running into the deadline. */
  method GetFile(items: seq<Message>) returns (file: Option<bytes>)
    ensures file == Collected(items)
  {
    var out: bytes := [];
    assert items[0..] == items;
    PrependTwice([], [], Collected(items));
    for i := 0 to |items|
      invariant Collected(items) == Prepend(out, Collected(items[i..]))
    {
      var m := items[i];
      assert items[i..][1..] == items[i + 1..];
      if m.kind == GET_CHUNK {
        PrependTwice(out, m.payload, Collected(items[i + 1..]));
        out := out + m.payload;
      } else if m.kind == GET_END {
        assert out + [] == out;
        return Some(out);
      }
    }
    return None;
  }

  lemma {:induction false} StreamAppend(a: seq<Message>, b: seq<Message>, reqId: u32)
    ensures StreamOf(a + b, reqId) == StreamOf(a, reqId) + StreamOf(b, reqId)
    decreases |b|
  {
    if b == [] {
      assert a + b == a;
    } else {
      var n := |b| - 1;
      assert (a + b)[..|a + b| - 1] == a + b[..n];
      StreamAppend(a, b[..n], reqId);
    }
  }

  /** Chunks of one request followed by its end collect to the concatenation of the chunks. */
  lemma {:induction false} CollectChunks(reqId: u32, parts: seq<bytes>, end: Message)
    requires end.kind == GET_END
    ensures Collected(ChunkMessages(GET_CHUNK, reqId, parts) + [end]) == Some(Concat(parts))
  {
    var items := ChunkMessages(GET_CHUNK, reqId, parts) + [end];
    if parts != [] {
      assert items[1..] == ChunkMessages(GET_CHUNK, reqId, parts[1..]) + [end];
      CollectChunks(reqId, parts[1..], end);
    }
  }

  // ---- parse_kv ----

  /** The ASCII characters at which str.splitlines breaks. */
  const BREAKS: set<byte> := {10, 11, 12, 13, 28, 29, 30}

  /** splitlines; CR LF gives one more empty line here, which holds no '='. */
  function SplitLines(b: bytes): seq<bytes>
    decreases |b|
  {
    if b == [] then []
    else
      var n := Kv.Span(b, BREAKS);
      [b[..n]] + if n == |b| then [] else SplitLines(b[n + 1..])
  }

  /** The lines with '=', split at the first one; a later line overrides an earlier one. */
  function Fields(lines: seq<bytes>): map<bytes, bytes> {
    if lines == [] then map[]
    else
      var t, l := Fields(lines[..|lines| - 1]), lines[|lines| - 1];
      var n := Kv.Span(l, {EQ});
      if n < |l| then t[l[..n] := l[n + 1..]] else t
  }

  /** What the client makes of a reply. */
  function ReplyFields(payload: bytes): map<bytes, bytes> {
    Fields(SplitLines(payload))
  }

  lemma SplitAt(b: bytes, at: nat)
    requires at < |b|
    ensures var n := Kv.Span(b[at..], BREAKS);
            SplitLines(b[at..]) == [b[at..at + n]] + if at + n == |b| then [] else SplitLines(b[at + n + 1..])
  {
    hide Kv.Span, BREAKS;
    var n := Kv.Span(b[at..], BREAKS);
    assert b[at..][..n] == b[at..at + n];
    if at + n < |b| {
      assert b[at..][n + 1..] == b[at + n + 1..];
    }
  }

  method ParseReply(payload: bytes) returns (out: map<bytes, bytes>)
    ensures out == ReplyFields(payload)
  {
    hide SplitLines, Kv.Span, BREAKS;
    var lines: seq<bytes> := [];
    var at := 0;
    assert payload[0..] == payload;
    NoLines();
    while at < |payload|
      invariant 0 <= at <= |payload|
      invariant SplitLines(payload) == lines + SplitLines(payload[at..])
      decreases |payload| - at
    {
      var end := Kv.Scan(payload, at, BREAKS);
      SplitAt(payload, at);
      lines := lines + [payload[at..end]];
      at := if end == |payload| then end else end + 1;
      assert at == |payload| ==> payload[at..] == [];
    }
    assert payload[at..] == [];
    assert lines + [] == lines;
    out := map[];
    for i := 0 to |lines|
      invariant out == Fields(lines[..i])
    {
      assert lines[..i + 1][..i] == lines[..i];
      var l := lines[i];
      var n := Kv.Scan(l, 0, {EQ});
      assert l[0..] == l;
      if n < |l| {
        out := out[l[..n] := l[n + 1..]];
      }
    }
    assert lines[..|lines|] == lines;
  }

  lemma NoLines()
    ensures SplitLines([]) == []
  {
  }

  /** Text that the reader keeps on one line. */
  predicate Printable(b: bytes) {
    Kv.Free(b, BREAKS)
  }

  /** Distinct keys without '=', and keys and values on one line. */
  predicate Legible(items: Items) {
    && (forall i :: 0 <= i < |items| ==> KvLaws.IsKey(items[i].0) && Printable(items[i].0) && Printable(items[i].1))
    && (forall i, j :: 0 <= i < j < |items| ==> items[i].0 != items[j].0)
  }

  lemma {:induction false} SplitJoined(lines: seq<bytes>)
    requires forall i :: 0 <= i < |lines| ==> lines[i] != [] && Printable(lines[i])
    ensures SplitLines(Join(lines)) == lines
  {
    hide SplitLines, BREAKS;
    NoLines();
    if lines != [] {
      SplitJoined(lines[1..]);
      if |lines| == 1 {
        SplitOne(lines[0]);
      } else {
        SplitFirst(lines[0], Join(lines[1..]));
        assert lines == [lines[0]] + lines[1..];
      }
    }
  }

  lemma SplitOne(l: bytes)
    requires l != [] && Printable(l)
    ensures SplitLines(l) == [l]
  {
    Kv.SpanIs(l, BREAKS, |l|);
    assert l[..|l|] == l;
  }

  lemma SplitFirst(l: bytes, rest: bytes)
    requires l != [] && Printable(l)
    ensures SplitLines(l + [LF] + rest) == [l] + SplitLines(rest)
  {
    var b := l + [LF] + rest;
    Kv.SpanIs(b, BREAKS, |l|);
    assert b[..|l|] == l && b[|l| + 1..] == rest;
  }

  lemma {:induction false} FieldsOf(items: Items, k: nat)
    requires k < |items| && forall i :: 0 <= i < |items| ==> KvLaws.IsKey(items[i].0)
    requires forall i, j :: 0 <= i < j < |items| ==> items[i].0 != items[j].0
    ensures var t := Fields(ItemLines(items)); items[k].0 in t && t[items[k].0] == items[k].1
    decreases |items|
  {
    var n := |items| - 1;
    var lines := ItemLines(items);
    var last, l := items[n], lines[n];
    assert lines[..n] == ItemLines(items[..n]);
    Kv.SpanIs(l, {EQ}, |last.0|);
    assert l[..|last.0|] == last.0 && l[|last.0| + 1..] == last.1;
    if k < n {
      FieldsOf(items[..n], k);
    }
  }

  /** The client reads back every field of a legible reply. */
  lemma ReadsBack(items: Items, k: nat)
    requires Legible(items) && k < |items|
    ensures var t := ReplyFields(EncodeKv(items)); items[k].0 in t && t[items[k].0] == items[k].1
  {
    hide SplitLines, Fields, Join;
    forall i | 0 <= i < |items| ensures ItemLines(items)[i] != [] && Printable(ItemLines(items)[i]) {
      assert ItemLines(items)[i] == items[i].0 + [EQ] + items[i].1;
    }
    SplitJoined(ItemLines(items));
    FieldsOf(items, k);
  }
}
