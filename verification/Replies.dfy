/** What the agent answers to each frame, as the protocol document words it, and what the client's reader
    makes of the answers. */
module Replies {
  import opened Bytes
  import opened Frame
  import opened Stream
  import opened SessionState
  import opened Transfers
  import opened Procs
  import opened Protocol
  import opened Server
  import opened Lifetime
  import opened Invariants
  import opened Runs
  import opened Argv
  import opened Client
  import opened Destination
  import opened Kids
  import Kv
  import KvLaws

  // ---- Texts ----

  function StatusItem(): (bytes, bytes) { (Ascii("status"), Ascii("ok")) }

  /** "status=ok" and further fields. */
  function OkText(more: Items): bytes {
    EncodeKv([StatusItem()] + more)
  }

  /** An ERROR frame, if its text fits the agent's buffer. */
  function Refusal(reqId: u32, code: bytes, text: bytes): seq<Message> {
    var t := EncodeKv([(Ascii("code"), code), (Ascii("message"), text)]);
    if |t| >= 512 then [] else [Message(ERROR, reqId, t)]
  }

  function BeginItems(reqId: u32, path: bytes, size: nat): Items {
    [(Ascii("transfer_id"), Decimal(reqId)), (Ascii("path"), path), (Ascii("size"), Decimal(size))]
  }

  function EndItems(path: bytes, size: nat): Items {
    [(Ascii("path"), path), (Ascii("bytes"), Decimal(size))]
  }

  function SpawnedItems(id: u32, path: bytes): Items {
    [(Ascii("proc_id"), Decimal(id)), (Ascii("path"), path)]
  }

  function KilledItems(id: u32): Items {
    [(Ascii("proc_id"), Decimal(id))]
  }

  /** The names of the four ways a child may end. */
  function EndName(r: KillReason): bytes {
    if r == NoKill then Ascii("exit")
    else if r == Requested then Ascii("killed")
    else if r == Timeout then Ascii("timeout")
    else Ascii("idle_timeout")
  }

  function CodeText(code: int): bytes {
    if code < 0 then [MINUS] + Decimal(-code) else Decimal(code)
  }

  function ExitItems(id: u32, code: int, r: KillReason): Items {
    [(Ascii("proc_id"), Decimal(id)), (Ascii("exit_code"), CodeText(code)), (Ascii("reason"), EndName(r))]
  }

  lemma EncodeOne(item: (bytes, bytes))
    ensures EncodeKv([item]) == item.0 + [EQ] + item.1
  {
    assert ItemLines([item]) == [Line(item)];
  }

  lemma EncodeMore(item: (bytes, bytes), rest: Items)
    requires rest != []
    ensures EncodeKv([item] + rest) == item.0 + [EQ] + item.1 + [LF] + EncodeKv(rest)
  {
    var lines := ItemLines([item] + rest);
    assert lines[0] == Line(item) && lines[1..] == ItemLines(rest);
  }

  /** "\n" key "=" as one literal. */
  lemma Separator(s: string, key: string)
    requires s == "\n" + key + "="
    ensures Ascii(s) == [LF] + Ascii(key) + [EQ]
  {
  }

  lemma StatusThen(s: string, key: string)
    requires s == "status=ok\n" + key + "="
    ensures Ascii(s) == StatusItem().0 + [EQ] + StatusItem().1 + [LF] + Ascii(key) + [EQ]
  {
  }

  lemma TwoItems(a: (bytes, bytes), b: (bytes, bytes))
    ensures EncodeKv([a, b]) == a.0 + [EQ] + a.1 + [LF] + b.0 + [EQ] + b.1
  {
    EncodeOne(b);
    EncodeMore(a, [b]);
    assert [a, b] == [a] + [b];
  }

  lemma ThreeItems(a: (bytes, bytes), b: (bytes, bytes), c: (bytes, bytes))
    ensures EncodeKv([a, b, c]) == a.0 + [EQ] + a.1 + [LF] + b.0 + [EQ] + b.1 + [LF] + c.0 + [EQ] + c.1
  {
    TwoItems(b, c);
    EncodeMore(a, [b, c]);
    assert [a, b, c] == [a] + [b, c];
  }

  lemma FourItems(a: (bytes, bytes), b: (bytes, bytes), c: (bytes, bytes), d: (bytes, bytes))
    ensures EncodeKv([a, b, c, d]) ==
            a.0 + [EQ] + a.1 + [LF] + b.0 + [EQ] + b.1 + [LF] + c.0 + [EQ] + c.1 + [LF] + d.0 + [EQ] + d.1
  {
    ThreeItems(b, c, d);
    EncodeMore(a, [b, c, d]);
    assert [a, b, c, d] == [a] + [b, c, d];
  }

  lemma BeginText(reqId: u32, path: bytes, size: nat)
    ensures BeginReply(reqId, path, size) == OkText(BeginItems(reqId, path, size))
  {
    hide Ascii, EncodeKv, Decimal;
    var items := BeginItems(reqId, path, size);
    assert [StatusItem()] + items == [StatusItem(), items[0], items[1], items[2]];
    FourItems(StatusItem(), items[0], items[1], items[2]);
    StatusThen("status=ok\ntransfer_id=", "transfer_id");
    Separator("\npath=", "path");
    Separator("\nsize=", "size");
  }

  lemma EndText(path: bytes, size: nat)
    ensures EndReply(path, size) == OkText(EndItems(path, size))
  {
    hide Ascii, EncodeKv, Decimal;
    var items := EndItems(path, size);
    assert [StatusItem()] + items == [StatusItem(), items[0], items[1]];
    ThreeItems(StatusItem(), items[0], items[1]);
    StatusThen("status=ok\npath=", "path");
    Separator("\nbytes=", "bytes");
  }

  lemma SpawnedText(id: u32, path: bytes)
    ensures SpawnReply(id, path) == OkText(SpawnedItems(id, path))
  {
    hide Ascii, EncodeKv, Decimal;
    var items := SpawnedItems(id, path);
    assert [StatusItem()] + items == [StatusItem(), items[0], items[1]];
    ThreeItems(StatusItem(), items[0], items[1]);
    StatusThen("status=ok\nproc_id=", "proc_id");
    Separator("\npath=", "path");
  }

  lemma KilledText(id: u32)
    ensures KillReply(id) == OkText(KilledItems(id))
  {
    hide Ascii, EncodeKv, Decimal;
    var items := KilledItems(id);
    assert [StatusItem()] + items == [StatusItem(), items[0]];
    TwoItems(StatusItem(), items[0]);
    StatusThen("status=ok\nproc_id=", "proc_id");
  }

  lemma ExitNames(code: int, r: KillReason)
    ensures Signed(code) == CodeText(code) && ReasonName(r) == EndName(r)
  {
    assert Ascii("-") == [MINUS];
  }

  lemma ExitText(id: u32, code: int, r: KillReason)
    ensures ExitReply(id, code, r) == OkText(ExitItems(id, code, r))
  {
    hide Ascii, EncodeKv, Decimal, CodeText, EndName, Signed, ReasonName;
    var items := ExitItems(id, code, r);
    assert [StatusItem()] + items == [StatusItem(), items[0], items[1], items[2]];
    FourItems(StatusItem(), items[0], items[1], items[2]);
    StatusThen("status=ok\nproc_id=", "proc_id");
    Separator("\nexit_code=", "exit_code");
    Separator("\nreason=", "reason");
    ExitNames(code, r);
  }

  lemma StatusText()
    ensures PongReply() == OkText([])
    ensures HelloReply() == OkText([(Ascii("message"), Ascii("hello"))])
    ensures Ascii("status=ping") == EncodeKv([(Ascii("status"), Ascii("ping"))])
  {
    hide EncodeKv;
    var hello := (Ascii("message"), Ascii("hello"));
    EncodeOne(StatusItem());
    EncodeOne((Ascii("status"), Ascii("ping")));
    assert [StatusItem()] + [] == [StatusItem()];
    assert [StatusItem()] + [hello] == [StatusItem(), hello];
    TwoItems(StatusItem(), hello);
    assert Ascii("status=ok\nmessage=hello") == StatusItem().0 + [EQ] + StatusItem().1 + [LF] + hello.0 + [EQ] + hello.1;
  }

  lemma ErrorIs(f: Failure, strerror: bytes)
    ensures var p := ErrorParts(f, strerror);
            ErrorText(f, strerror) == EncodeKv([(Ascii("code"), p.0), (Ascii("message"), p.1)])
  {
    hide Ascii, EncodeKv, ErrorParts;
    var p := ErrorParts(f, strerror);
    TwoItems((Ascii("code"), p.0), (Ascii("message"), p.1));
    CodeLiteral();
    Separator("\nmessage=", "message");
  }

  lemma CodeLiteral()
    ensures Ascii("code=") == Ascii("code") + [EQ]
  {
  }

  // ---- Sending a list of frames ----

  function SendEach(l: Link, ms: seq<Message>, now: nat, env: Env): Link
    decreases |ms|
  {
    if ms == [] then l else SendEach(Send(l, ms[0], now, env).0, ms[1..], now, env)
  }

  lemma SendNone(l: Link, now: nat, env: Env)
    ensures SendEach(l, [], now, env) == l
  {
  }

  lemma SendOne(l: Link, m: Message, now: nat, env: Env)
    ensures SendEach(l, [m], now, env) == Send(l, m, now, env).0
  {
    hide Send;
    var ms: seq<Message> := [m];
    assert ms[1..] == [];
  }

  lemma {:induction false} SendThen(l: Link, a: seq<Message>, b: seq<Message>, now: nat, env: Env)
    ensures SendEach(l, a + b, now, env) == SendEach(SendEach(l, a, now, env), b, now, env)
    decreases |a|
  {
    hide Send;
    if a == [] {
      assert a + b == b;
    } else {
      assert (a + b)[0] == a[0] && (a + b)[1..] == a[1..] + b;
      SendThen(Send(l, a[0], now, env).0, a[1..], b, now, env);
    }
  }

  /** Sending an error is sending the refusal with its two parts. */
  lemma SendRefusal(l: Link, reqId: u32, f: Failure, now: nat, env: Env)
    ensures var p := ErrorParts(f, env.strerror);
            SendError(l, reqId, f, now, env) == SendEach(l, Refusal(reqId, p.0, p.1), now, env)
  {
    hide Send, ErrorText, EncodeKv, ErrorParts, Ascii;
    ErrorIs(f, env.strerror);
    SendNone(l, now, env);
    SendOne(l, Message(ERROR, reqId, ErrorText(f, env.strerror)), now, env);
  }

  // ---- The answer to each frame ----

  function BeginAnswer(h: Hist, reqId: u32, payload: bytes, env: Env): seq<Message> {
    var path, size := Kv.Copy(payload, PATH(), PATH_CAP), Kv.CopyU64(payload, SIZE());
    if h.job.Some? then Refusal(reqId, Ascii("io_error"), Ascii("transfer already active"))
    else if path.None? || size.None? then Refusal(reqId, Ascii("bad_payload"), Ascii("missing path or size"))
    else if !env.openOk then Refusal(reqId, Ascii("io_error"), env.strerror)
    else
      var text := OkText(BeginItems(reqId, path.value, size.value));
      if |text| >= 256 then Refusal(reqId, Ascii("internal"), Ascii("reply overflow"))
      else [Message(ACK, reqId, text)]
  }

  /** An accepted chunk has no answer. */
  function ChunkAnswer(h: Hist, reqId: u32, data: bytes, env: Env): seq<Message> {
    if h.job.None? || h.job.value.reqId != reqId then
      Refusal(reqId, Ascii("bad_payload"), Ascii("no active transfer"))
    else if (h.job.value.offset + |data|) % TWO_64 > h.job.value.size then
      Refusal(reqId, Ascii("bad_payload"), Ascii("chunk exceeds declared size"))
    else if env.written < |data| then Refusal(reqId, Ascii("io_error"), Ascii("write failed"))
    else []
  }

  /** The acknowledgement names the path and all bytes of the upload. */
  function EndAnswer(h: Hist, reqId: u32, env: Env): seq<Message> {
    if h.job.None? || h.job.value.reqId != reqId then
      Refusal(reqId, Ascii("bad_payload"), Ascii("no active transfer"))
    else
      var j := h.job.value;
      if j.offset != j.size then Refusal(reqId, Ascii("bad_payload"), Ascii("size mismatch"))
      else if !env.closeOk || !env.renameOk then Refusal(reqId, Ascii("io_error"), env.strerror)
      else [Message(ACK, reqId, OkText(EndItems(j.path, j.size)))]
  }

  function SpawnAnswer(k: Kid, reqId: u32, path: bytes, ack: bool, env: Env): seq<Message> {
    if IsActive(k) then Refusal(reqId, Ascii("spawn_failed"), Ascii("process already active"))
    else
      match env.launch(k.tries)
      case ChildStarted =>
        var text := OkText(SpawnedItems(NthId(k.tries), path));
        if !ack then []
        else if |text| >= 256 then Refusal(reqId, Ascii("internal"), Ascii("reply overflow"))
        else [Message(ACK, reqId, text)]
      case OutPipeFailed(error) => Refusal(reqId, Ascii("spawn_failed"), error)
      case ErrPipeFailed(error) => Refusal(reqId, Ascii("spawn_failed"), error)
      case SpawnRefused(error) => Refusal(reqId, Ascii("spawn_failed"), error)
  }

  function KillAnswer(k: Kid, reqId: u32, payload: bytes, env: Env): seq<Message> {
    match ProcIdIn(payload)
    case None => Refusal(reqId, Ascii("bad_payload"), Ascii("missing proc_id"))
    case Some(id) =>
      if !IsActive(k) || k.phase.child.id != id then Refusal(reqId, Ascii("not_found"), Ascii("process not active"))
      else if !env.killOk then Refusal(reqId, Ascii("io_error"), Ascii("kill failed"))
      else [Message(ACK, reqId, OkText(KilledItems(id)))]
  }

  /** Whatever the Lua code sends, in its order. */
  function LuaAnswer(k: Kid, acts: seq<LuaAction>, now: nat, env: Env): seq<Message>
    decreases |acts|
  {
    if acts == [] then []
    else
      match acts[0]
      case Reply(kind, reqId, text) => [Message(kind, reqId, text)] + LuaAnswer(k, acts[1..], now, env)
      case ReplyError(reqId, code, text) => Refusal(reqId, code, text) + LuaAnswer(k, acts[1..], now, env)
      case SpawnTool(path, argv, timeoutMs, idleTimeoutMs) =>
        if argv == [] then LuaAnswer(k, acts[1..], now, env)
        else
          SpawnAnswer(k, 0, path, false, env)
          + LuaAnswer(SeeSpawn(k, path, argv, timeoutMs, idleTimeoutMs, now, env), acts[1..], now, env)
  }

  /** The answer to every frame but GET_BEGIN, in terms of what was observed. */
  function Answer(h: Hist, k: Kid, m: Message, now: nat, env: Env): seq<Message> {
    if m.kind == HELLO then [Message(ACK, m.reqId, OkText([(Ascii("message"), Ascii("hello"))]))]
    else if m.kind == PING then [Message(PONG, m.reqId, OkText([]))]
    else if m.kind == PUT_BEGIN then BeginAnswer(h, m.reqId, m.payload, env)
    else if m.kind == PUT_CHUNK then ChunkAnswer(h, m.reqId, m.payload, env)
    else if m.kind == PUT_END then EndAnswer(h, m.reqId, env)
    else if m.kind == KILL then KillAnswer(k, m.reqId, m.payload, env)
    else if m.kind == PROC_SPAWN then
      match Kv.Copy(m.payload, PATH(), PATH_CAP)
      case None => Refusal(m.reqId, Ascii("bad_payload"), Ascii("missing path"))
      case Some(path) => SpawnAnswer(k, m.reqId, path, true, env)
    else if m.kind == OP then
      LuaAnswer(k, env.lua, now, env)
      + if env.luaOk then [] else Refusal(m.reqId, Ascii("internal"), Ascii("lua dispatch failed"))
    else Refusal(m.reqId, Ascii("bad_type"), Ascii("unsupported frame type"))
  }

  lemma BeginAnswered(h: Hist, c: Core, reqId: u32, payload: bytes, now: nat, env: Env)
    requires CoreOk(c, now) && HistOk(h, c)
    ensures PutBegin(c, reqId, payload, now, env).link == SendEach(c.link, BeginAnswer(h, reqId, payload, env), now, env)
  {
    hide Send, SendError, LinkOk, ProcOk, BeginReply, OkText, BeginItems, Part, Kv.Copy, Kv.CopyU64, Kv.CopyU64Or,
         PATH, SIZE, OVERWRITE, CHUNK_SIZE, ONE, Final, Whole, SendEach, Refusal, Ascii, Abort;
    var path, size := Kv.Copy(payload, PATH(), PATH_CAP), Kv.CopyU64(payload, SIZE());
    SendRefusal(c.link, reqId, TransferBusy, now, env);
    SendRefusal(c.link, reqId, MissingPathOrSize, now, env);
    SendRefusal(c.link, reqId, FileError, now, env);
    SendRefusal(c.link, reqId, ReplyOverflow, now, env);
    if path.Some? && size.Some? {
      BeginText(reqId, path.value, size.value);
      SendOne(c.link, Message(ACK, reqId, BeginReply(reqId, path.value, size.value)), now, env);
    }
  }

  lemma ChunkAnswered(h: Hist, c: Core, reqId: u32, data: bytes, now: nat, env: Env)
    requires CoreOk(c, now) && HistOk(h, c)
    ensures PutChunk(c, reqId, data, now, env).link == SendEach(c.link, ChunkAnswer(h, reqId, data, env), now, env)
  {
    hide Send, SendError, LinkOk, ProcOk, BeginReply, Part, Final, Whole, SendEach, Refusal, Ascii, Abort, WriteAt;
    SendRefusal(c.link, reqId, NoTransfer, now, env);
    SendRefusal(c.link, reqId, ChunkTooLong, now, env);
    SendRefusal(c.link, reqId, WriteFailed, now, env);
    SendNone(c.link, now, env);
    if c.upload.active {
      WriteCounts(c.fs, c.upload.file, c.upload.offset, data, env);
    }
  }

  lemma EndAnswered(h: Hist, c: Core, reqId: u32, now: nat, env: Env)
    requires CoreOk(c, now) && HistOk(h, c)
    ensures PutEnd(c, reqId, now, env).link == SendEach(c.link, EndAnswer(h, reqId, env), now, env)
  {
    hide Send, SendError, LinkOk, ProcOk, BeginReply, EndReply, OkText, EndItems, Final, Whole, SendEach, Refusal,
         Ascii, Abort, FinalizeRename;
    SendRefusal(c.link, reqId, NoTransfer, now, env);
    SendRefusal(c.link, reqId, SizeMismatch, now, env);
    SendRefusal(c.link, reqId, FileError, now, env);
    var u := c.upload;
    if u.active {
      EndText(u.path.value, u.total);
      EndReplyShorter(u.reqId, u.path.value, u.total);
      RenameFiles(u.(file := -1), CloseFd(c.fs, u.file), env, u.path.value + [0]);
      SendOne(c.link, Message(ACK, reqId, EndReply(u.path.value, u.total)), now, env);
    }
  }

  lemma SpawnAnswered(k: Kid, c: Core, reqId: u32, path: bytes, args: seq<bytes>, timeout: nat, idleTimeout: nat,
                      ack: bool, now: nat, env: Env)
    requires KidOk(k, c) && ProcOk(c.proc, now) && !c.proc.overlapped
    ensures var r := Spawn(c, reqId, path, args, timeout, idleTimeout, ack, now, env);
            var refs := if !c.proc.active && env.launch(k.tries).ChildStarted? then 3 else 0;
            r.link == SendEach(c.link.(closeRefs := c.link.closeRefs + refs), SpawnAnswer(k, reqId, path, ack, env), now, env)
  {
    hide Send, SendError, SpawnReply, OkText, SpawnedItems, SendEach, Refusal, Ascii, NthId, Trace, LeavePipes, Attempt,
         Prepared, Launched;
    ActiveIs(k, c, now);
    SendRefusal(c.link, reqId, ProcBusy, now, env);
    var launch := env.launch(k.tries);
    if !launch.ChildStarted? {
      SendRefusal(c.link, reqId, SpawnFailed(launch.error), now, env);
    } else {
      var l := c.link.(closeRefs := c.link.closeRefs + 3);
      SendNone(l, now, env);
      SendRefusal(l, reqId, ReplyOverflow, now, env);
      SpawnedText(c.nextProcId, path);
      SendOne(l, Message(ACK, reqId, SpawnReply(c.nextProcId, path)), now, env);
    }
  }

  lemma KillAnswered(k: Kid, c: Core, reqId: u32, payload: bytes, now: nat, env: Env)
    requires KidOk(k, c) && ProcOk(c.proc, now) && !c.proc.overlapped
    ensures HandleKill(c, reqId, payload, now, env).link == SendEach(c.link, KillAnswer(k, reqId, payload, env), now, env)
  {
    hide Send, SendError, KillReply, OkText, KilledItems, SendEach, Refusal, Ascii, NthId, Trace, ProcIdIn;
    ActiveIs(k, c, now);
    SendRefusal(c.link, reqId, MissingProcId, now, env);
    SendRefusal(c.link, reqId, NoProc, now, env);
    SendRefusal(c.link, reqId, KillFailed, now, env);
    var id := ProcIdIn(payload);
    if id.Some? {
      KilledText(id.value);
      SendOne(c.link, Message(ACK, reqId, KillReply(id.value)), now, env);
    }
  }

  /** The same connection but for the references. */
  predicate Wired(l: Link, r: Link) {
    r == l.(closeRefs := r.closeRefs)
  }

  lemma {:induction false} SendsWired(l: Link, r: Link, ms: seq<Message>, now: nat, env: Env)
    requires Wired(l, r)
    ensures Wired(SendEach(l, ms, now, env), SendEach(r, ms, now, env))
    decreases |ms|
  {
    if ms != [] {
      SendsWired(Send(l, ms[0], now, env).0, Send(r, ms[0], now, env).0, ms[1..], now, env);
    }
  }

  lemma {:induction false} OverlapStays(c: Core, acts: seq<LuaAction>, now: nat, env: Env)
    requires c.proc.overlapped
    ensures LuaSteps(c, acts, now, env).proc.overlapped
    decreases |acts|
  {
    hide Send, SendError, SpawnReply, LeavePipes, HandlesLive;
    if acts != [] {
      SpawnOverlap(c, acts[0], now, env);
      OverlapStays(LuaStep(c, acts[0], now, env), acts[1..], now, env);
    }
  }

  lemma SpawnOverlap(c: Core, a: LuaAction, now: nat, env: Env)
    requires c.proc.overlapped
    ensures LuaStep(c, a, now, env).proc.overlapped
  {
    hide Send, SendError, SpawnReply;
  }

  /** One call from Lua. */
  lemma LuaStepAnswered(k: Kid, c: Core, a: LuaAction, now: nat, env: Env) returns (ms: seq<Message>, next: Kid)
    requires KidOk(k, c) && ProcOk(c.proc, now) && !c.proc.overlapped
    ensures KidOk(next, LuaStep(c, a, now, env))
    ensures Wired(SendEach(c.link, ms, now, env), LuaStep(c, a, now, env).link)
    ensures forall rest :: LuaAnswer(k, [a] + rest, now, env) == ms + LuaAnswer(next, rest, now, env)
  {
    hide Send, SendError, Spawn, SpawnAnswer, SeeSpawn, SendEach, Refusal, Ascii, NthId, Trace, ProcOk, PhaseOf;
    assert forall rest: seq<LuaAction> :: ([a] + rest)[1..] == rest;
    next := k;
    match a {
      case Reply(kind, reqId, text) =>
        ms := [Message(kind, reqId, text)];
        SendOne(c.link, ms[0], now, env);
      case ReplyError(reqId, code, text) =>
        ms := Refusal(reqId, code, text);
        SendRefusal(c.link, reqId, LuaError(code, text), now, env);
      case SpawnTool(path, argv, timeoutMs, idleTimeoutMs) =>
        if argv == [] {
          ms := [];
          SendNone(c.link, now, env);
        } else {
          ms := SpawnAnswer(k, 0, path, false, env);
          next := SeeSpawn(k, path, argv, timeoutMs, idleTimeoutMs, now, env);
          SpawnAnswered(k, c, 0, path, argv, timeoutMs, idleTimeoutMs, false, now, env);
          SpawnSeen(k, c, 0, path, argv, timeoutMs, idleTimeoutMs, false, now, env);
          var refs := if !c.proc.active && env.launch(k.tries).ChildStarted? then 3 else 0;
          SendsWired(c.link, c.link.(closeRefs := c.link.closeRefs + refs), ms, now, env);
        }
    }
  }

  lemma {:induction false} LuaAnswered(k: Kid, c: Core, acts: seq<LuaAction>, now: nat, env: Env)
    requires KidOk(k, c) && CoreOk(c, now) && c.link.tcp != Closed
    requires !LuaSteps(c, acts, now, env).proc.overlapped
    ensures Wired(SendEach(c.link, LuaAnswer(k, acts, now, env), now, env), LuaSteps(c, acts, now, env).link)
    decreases |acts|
  {
    hide LuaStep, LuaAnswer, SendEach, KidOk, CoreOk;
    if acts == [] {
      NoActs(k, now, env);
      SendNone(c.link, now, env);
    } else {
      var a, rest := acts[0], acts[1..];
      if c.proc.overlapped {
        OverlapStays(c, acts, now, env);
      }
      CoreProc(c, now);
      var ms, next := LuaStepAnswered(k, c, a, now, env);
      var d := LuaStep(c, a, now, env);
      LuaStepKeeps(c, a, now, env);
      LuaAnswered(next, d, rest, now, env);
      assert acts == [a] + rest;
      var later := LuaAnswer(next, rest, now, env);
      SendThen(c.link, ms, later, now, env);
      SendsWired(SendEach(c.link, ms, now, env), d.link, later, now, env);
    }
  }

  lemma NoActs(k: Kid, now: nat, env: Env)
    ensures LuaAnswer(k, [], now, env) == []
  {
  }

  lemma CoreProc(c: Core, now: nat)
    requires CoreOk(c, now)
    ensures ProcOk(c.proc, now)
  {
  }

  lemma LuaStepKeeps(c: Core, a: LuaAction, now: nat, env: Env)
    requires CoreOk(c, now) && c.link.tcp != Closed
    ensures CoreOk(LuaStep(c, a, now, env), now) && LuaStep(c, a, now, env).link.tcp != Closed
  {
    hide LuaStep;
    LuaStepsKeep(c, [a], now, env);
    OneAct(c, a, now, env);
  }

  lemma OneAct(c: Core, a: LuaAction, now: nat, env: Env)
    ensures LuaSteps(c, [a], now, env) == LuaStep(c, a, now, env)
  {
    hide LuaStep;
    var acts: seq<LuaAction> := [a];
    assert acts[1..] == [];
  }

  lemma OpAnswered(k: Kid, c: Core, reqId: u32, now: nat, env: Env)
    requires KidOk(k, c) && CoreOk(c, now) && c.link.tcp != Closed
    requires !HandleOp(c, reqId, now, env).proc.overlapped
    ensures var ms := LuaAnswer(k, env.lua, now, env)
                      + if env.luaOk then [] else Refusal(reqId, Ascii("internal"), Ascii("lua dispatch failed"));
            Wired(SendEach(c.link, ms, now, env), HandleOp(c, reqId, now, env).link)
  {
    hide LuaSteps, LuaAnswer, SendEach, KidOk, CoreOk, Refusal, Ascii, SendError;
    LuaAnswered(k, c, env.lua, now, env);
    var ms, d := LuaAnswer(k, env.lua, now, env), LuaSteps(c, env.lua, now, env);
    var last := if env.luaOk then [] else Refusal(reqId, Ascii("internal"), Ascii("lua dispatch failed"));
    SendRefusal(d.link, reqId, LuaFailed, now, env);
    SendNone(d.link, now, env);
    SendThen(c.link, ms, last, now, env);
    SendsWired(SendEach(c.link, ms, now, env), d.link, last, now, env);
  }

  /** Every frame but GET_BEGIN is answered as stated, and no other frame is sent. */
  lemma FrameAnswered(h: Hist, k: Kid, c: Core, m: Message, now: nat, env: Env)
    requires CoreOk(c, now) && HistOk(h, c) && KidOk(k, c) && c.link.tcp != Closed
    requires !c.proc.overlapped && !Dispatch(c, m, now, env).proc.overlapped && m.kind != GET_BEGIN
    ensures Wired(SendEach(c.link, Answer(h, k, m, now, env), now, env), Dispatch(c, m, now, env).link)
  {
    hide Send, SendError, PutBegin, PutChunk, PutEnd, HandleOp, HandleKill, Spawn, SendEach, Refusal, Ascii, OkText,
         BeginAnswer, ChunkAnswer, EndAnswer, KillAnswer, SpawnAnswer, LuaAnswer, CoreOk, HistOk, KidOk, Kv.Copy,
         Kv.CopyU64Or, HelloReply, PongReply, PATH, TIMEOUT_MS, IDLE_TIMEOUT_MS;
    CoreProc(c, now);
    if m.kind == PUT_BEGIN {
      BeginAnswered(h, c, m.reqId, m.payload, now, env);
    } else if m.kind == PUT_CHUNK {
      ChunkAnswered(h, c, m.reqId, m.payload, now, env);
    } else if m.kind == PUT_END {
      EndAnswered(h, c, m.reqId, now, env);
    } else if m.kind == KILL {
      KillAnswered(k, c, m.reqId, m.payload, now, env);
    } else if m.kind == OP {
      OpAnswered(k, c, m.reqId, now, env);
    } else if m.kind == PROC_SPAWN {
      SpawnFrameAnswered(k, c, m, now, env);
    } else {
      StatusText();
      SendOne(c.link, Message(ACK, m.reqId, HelloReply()), now, env);
      SendOne(c.link, Message(PONG, m.reqId, PongReply()), now, env);
      SendRefusal(c.link, m.reqId, BadType, now, env);
    }
  }

  lemma SpawnFrameAnswered(k: Kid, c: Core, m: Message, now: nat, env: Env)
    requires KidOk(k, c) && ProcOk(c.proc, now) && !c.proc.overlapped && m.kind == PROC_SPAWN
    ensures var path := Kv.Copy(m.payload, PATH(), PATH_CAP);
            var ms := if path.None? then Refusal(m.reqId, Ascii("bad_payload"), Ascii("missing path"))
                      else SpawnAnswer(k, m.reqId, path.value, true, env);
            Wired(SendEach(c.link, ms, now, env), HandleSpawn(c, m.reqId, m.payload, now, env).link)
  {
    hide Spawn, SendError, SendEach, Refusal, Ascii, SpawnAnswer, KidOk, ProcOk, Kv.Copy, Kv.CopyU64Or, Args, PATH,
         TIMEOUT_MS, IDLE_TIMEOUT_MS;
    var path := Kv.Copy(m.payload, PATH(), PATH_CAP);
    if path.None? {
      SendRefusal(c.link, m.reqId, MissingPath, now, env);
    } else {
      var ms := SpawnAnswer(k, m.reqId, path.value, true, env);
      SpawnAnswered(k, c, m.reqId, path.value, Args(m.payload, path.value),
                    Kv.CopyU64Or(m.payload, TIMEOUT_MS(), 60000),
                    Kv.CopyU64Or(m.payload, IDLE_TIMEOUT_MS(), 10000), true, now, env);
      var refs := if !c.proc.active && env.launch(k.tries).ChildStarted? then 3 else 0;
      SendsWired(c.link, c.link.(closeRefs := c.link.closeRefs + refs), ms, now, env);
    }
  }
}
