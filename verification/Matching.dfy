/** When the transfer counters balance. A start is not always matched by a completion or an abort: some
    branches give a transfer up without counting. These are exactly the ones that do. */
module Matching {
  import opened Bytes
  import opened Frame
  import opened Stream
  import opened SessionState
  import opened Transfers
  import opened Procs
  import opened Protocol
  import opened Server
  import opened Lifetime
  import opened Invariants
  import opened Runs
  import Kv
  import Argv

  /** Starts that are neither completed, nor aborted, nor still active. */
  function Lost(c: Core): int {
    c.tally.starts - c.tally.completes - c.tally.aborts - One(c.upload.active)
  }

  predicate SilentBegin(c: Core, reqId: u32, payload: bytes, env: Env) {
    var path, size := Kv.Copy(payload, PATH(), PATH_CAP), Kv.CopyU64(payload, SIZE());
    && !c.upload.active && path.Some? && size.Some?
    && (!env.openOk || |BeginReply(reqId, path.value, size.value)| >= REPLY_CAP)
  }

  predicate SilentEnd(c: Core, reqId: u32, env: Env) {
    && c.upload.active && c.upload.reqId == reqId
    && (c.upload.offset != c.upload.total || !env.closeOk || !env.renameOk)
  }

  predicate SilentGet(c: Core, reqId: u32, payload: bytes, now: nat, env: Env) {
    var path := Kv.Copy(payload, PATH(), PATH_CAP);
    && path.Some? && OpenForRead(c.fs, path.value, env).1 >= 0 && env.statOk
    && var reply := BeginReply(reqId, path.value, FileSize(c.fs, path.value));
       |reply| >= REPLY_CAP || !Send(c.link, Message(ACK, reqId, reply), now, env).1
  }

  /** A frame after which one more start stays unmatched: PUT_BEGIN whose file does not open or whose
      reply does not fit; PUT_END with missing bytes, a failed close or a failed rename; GET_BEGIN
      whose announcement does not fit or cannot be sent. */
  predicate Silent(c: Core, m: Message, now: nat, env: Env) {
    || (m.kind == PUT_BEGIN && SilentBegin(c, m.reqId, m.payload, env))
    || (m.kind == PUT_END && SilentEnd(c, m.reqId, env))
    || (m.kind == GET_BEGIN && SilentGet(c, m.reqId, m.payload, now, env))
  }

  lemma BeginLoses(c: Core, reqId: u32, payload: bytes, now: nat, env: Env)
    requires CoreOk(c, now)
    ensures Lost(PutBegin(c, reqId, payload, now, env)) == Lost(c) + One(SilentBegin(c, reqId, payload, env))
  {
    hide Send, SendError, LinkOk, ProcOk, BeginReply, Part, Kv.Copy, Kv.CopyU64, Kv.CopyU64Or, PATH, SIZE,
         OVERWRITE, CHUNK_SIZE, ONE, Abort;
  }

  lemma ChunkLoses(c: Core, reqId: u32, data: bytes, now: nat, env: Env)
    requires CoreOk(c, now)
    ensures Lost(PutChunk(c, reqId, data, now, env)) == Lost(c)
  {
    hide Send, SendError, LinkOk, ProcOk, BeginReply, Part, WriteAt, Abort;
  }

  lemma EndLoses(c: Core, reqId: u32, now: nat, env: Env)
    requires CoreOk(c, now)
    ensures Lost(PutEnd(c, reqId, now, env)) == Lost(c) + One(SilentEnd(c, reqId, env))
  {
    hide Send, SendError, LinkOk, ProcOk, BeginReply, EndReply, Abort;
    var u := c.upload;
    if u.active {
      EndReplyShorter(u.reqId, u.path.value, u.total);
      assert Part(u.path.value) != u.path.value;
    }
  }

  lemma GetOpenedLoses(c: Core, reqId: u32, path: bytes, now: nat, env: Env)
    requires LinkOk(c.link, c.proc, now) && c.download.tmp.None? && c.download.file >= 0
    ensures var reply := BeginReply(reqId, path, FileSize(c.fs, path));
            Lost(GetOpened(c, reqId, path, now, env)) ==
            Lost(c) + One(env.statOk && (|reply| >= REPLY_CAP
                                         || !Send(c.link, Message(ACK, reqId, reply), now, env).1))
  {
    hide Send, SendError, LinkOk, CloseFd, BeginReply, GetChunks;
    SendsKeep(c.link, c.proc, now, env);
    var total := FileSize(c.fs, path);
    var d := c.download.(active := true, mode := Download, reqId := reqId, total := total,
                         offset := 0, progress := now);
    var (l, sent) := Send(c.link, Message(ACK, reqId, BeginReply(reqId, path, total)), now, env);
    GetChunksKeeps(c.(link := l, download := d, tally := Started(c.tally)), now, env);
  }

  lemma GetLoses(c: Core, reqId: u32, payload: bytes, now: nat, env: Env)
    requires CoreOk(c, now)
    ensures Lost(GetBegin(c, reqId, payload, now, env)) == Lost(c) + One(SilentGet(c, reqId, payload, now, env))
  {
    hide Send, SendError, LinkOk, ProcOk, UploadOk, BeginReply, Kv.Copy, PATH, CHUNK_SIZE, GetOpened, ChunkSize;
    var path := Kv.Copy(payload, PATH(), PATH_CAP);
    if path.Some? {
      var (fs, fd) := OpenForRead(c.fs, path.value, env);
      if fd >= 0 {
        var d := IDLE.(path := path, chunkSize := ChunkSize(payload), file := fd);
        GetOpenedLoses(c.(fs := fs, download := d), reqId, path.value, now, env);
      }
    }
  }

  lemma {:induction false} LuaStepsLose(c: Core, acts: seq<LuaAction>, now: nat, env: Env)
    ensures var r := LuaSteps(c, acts, now, env); r.tally == c.tally && r.upload == c.upload
    decreases |acts|
  {
    hide Send, SendError, Spawn;
    if acts != [] {
      var a := acts[0];
      if a.SpawnTool? {
        SpawnLeaves(c, 0, a.path, a.argv, a.timeoutMs, a.idleTimeoutMs, false, now, env);
      }
      LuaStepsLose(LuaStep(c, a, now, env), acts[1..], now, env);
    }
  }

  lemma OtherTally(c: Core, m: Message, now: nat, env: Env)
    requires m.kind != PUT_BEGIN && m.kind != PUT_CHUNK && m.kind != PUT_END && m.kind != GET_BEGIN
    ensures var r := Dispatch(c, m, now, env); r.tally == c.tally && r.upload == c.upload
  {
    hide Send, SendError, LuaSteps, Spawn, Kv.Copy, Kv.CopyU64Or, KillReply, ProcIdIn, Argv.Args, HelloReply,
         PongReply, PATH, TIMEOUT_MS, IDLE_TIMEOUT_MS;
    LuaStepsLose(c, env.lua, now, env);
    var path := Kv.Copy(m.payload, PATH(), PATH_CAP);
    if path.Some? {
      SpawnLeaves(c, m.reqId, path.value, Argv.Args(m.payload, path.value),
                  Kv.CopyU64Or(m.payload, TIMEOUT_MS(), 60000),
                  Kv.CopyU64Or(m.payload, IDLE_TIMEOUT_MS(), 10000), true, now, env);
    }
  }

  lemma SameLost(c: Core, r: Core)
    requires r.tally == c.tally && r.upload == c.upload
    ensures Lost(r) == Lost(c)
  {
  }

  /** Each frame leaves one more start unmatched exactly if it is silent. */
  lemma DispatchLoses(c: Core, m: Message, now: nat, env: Env)
    requires CoreOk(c, now)
    ensures Lost(Dispatch(c, m, now, env)) == Lost(c) + One(Silent(c, m, now, env))
  {
    hide CoreOk, Lost, PutBegin, PutChunk, PutEnd, GetBegin, HandleOp, HandleSpawn, HandleKill, Tell, Fail,
         SilentBegin, SilentEnd, SilentGet;
    if m.kind == PUT_BEGIN {
      BeginLoses(c, m.reqId, m.payload, now, env);
    } else if m.kind == PUT_CHUNK {
      ChunkLoses(c, m.reqId, m.payload, now, env);
    } else if m.kind == PUT_END {
      EndLoses(c, m.reqId, now, env);
    } else if m.kind == GET_BEGIN {
      GetLoses(c, m.reqId, m.payload, now, env);
    } else {
      OtherTally(c, m, now, env);
      SameLost(c, Dispatch(c, m, now, env));
    }
  }

  // ---- Whole runs ----

  function SilentIn(c: Core, ms: seq<Message>, now: nat, env: Oracle): nat
    decreases |ms|
  {
    if ms == [] then 0
    else
      var counted := c.(framesRx := c.framesRx + 1, bytesRx := c.bytesRx + WireSize(ms[0]));
      One(Silent(counted, ms[0], now, env(c.framesRx)))
      + SilentIn(Receive(c, ms[0], now, env), ms[1..], now, env)
  }

  lemma {:induction false} ReceiveAllLoses(c: Core, ms: seq<Message>, now: nat, env: Oracle)
    requires CoreOk(c, now) && c.link.tcp != Closed && forall m <- ms :: ValidMessage(m)
    ensures Lost(ReceiveAll(c, ms, now, env)) == Lost(c) + SilentIn(c, ms, now, env)
    decreases |ms|
  {
    hide LinkOk, ProcOk, UploadOk, Dispatch, Silent;
    if ms != [] {
      var counted := c.(framesRx := c.framesRx + 1, bytesRx := c.bytesRx + WireSize(ms[0]));
      DispatchKeeps(counted, ms[0], now, env(c.framesRx));
      DispatchLoses(counted, ms[0], now, env(c.framesRx));
      ReceiveAllLoses(Receive(c, ms[0], now, env), ms[1..], now, env);
    }
  }

  /** The silent ends of one event: silent frames of a read, and an upload in progress when the last
      reference is given back. */
  function SilentEnds(w: World, now: nat, e: Event): nat {
    if e.ReadBytes? then
      if |w.rx| + |e.chunk| > RX_CAP then 0
      else SilentIn(w.core.(link := w.core.link.(lastRx := now)), Parse(w.rx + e.chunk).messages, now, e.oracle)
    else One(w.core.upload.active && IsHandleClosed(e) && w.core.link.closeRefs <= 1)
  }

  lemma ReadLoses(w: World, now: nat, chunk: bytes, env: Oracle)
    requires CoreOk(w.core, now) && w.core.link.tcp == Open
    ensures Lost(Step(w, now, ReadBytes(chunk, env)).core) ==
            Lost(w.core) + SilentEnds(w, now, ReadBytes(chunk, env))
  {
    hide LinkOk, ProcOk, UploadOk, Parse, ReceiveAll, CloseLink, SilentIn;
    HeardKeeps(w.core.link, w.core.proc, now);
    ParseValid(w.rx + chunk);
    ReceiveAllLoses(w.core.(link := w.core.link.(lastRx := now)), Parse(w.rx + chunk).messages, now, env);
  }

  lemma ReleaseLoses(c: Core, env: Env)
    ensures Lost(Release(c, env)) ==
            Lost(c) + One(c.upload.active && c.link.closeRefs <= 1)
  {
    hide Abort, ProcAbort;
  }

  lemma TickLoses(c: Core, now: nat, env: Env)
    requires CoreOk(c, now)
    ensures Lost(Tick(c, now, env)) == Lost(c)
  {
    hide Send, LinkOk, ProcOk, UploadOk, CheckProc, Abort, ErrorText, PingText, Elapsed;
  }

  lemma CallbackLoses(w: World, now: nat, e: Event)
    requires CoreOk(w.core, now) && !e.ReadBytes?
    ensures Lost(Step(w, now, e).core) == Lost(w.core) + SilentEnds(w, now, e)
  {
    hide LinkOk, ProcOk, UploadOk, Send, Release, Tick, MaybeFinalize, ExitReply, PipeKind;
    var c := w.core;
    match e
    case HeartbeatTick(env) => TickLoses(c, now, env);
    case TimerHandleClosed(env) => ReleaseLoses(c.(link := c.link.(timer := Closed)), env);
    case TcpHandleClosed(env) => ReleaseLoses(c.(link := c.link.(tcp := Closed)), env);
    case ProcessHandleClosed(env) => ReleaseLoses(c.(proc := c.proc.(process := Closed)), env);
    case PipeHandleClosed(which, env) =>
      ReleaseLoses(c.(proc := WithPipeClosed(c.proc, which)), env);
    case _ =>
  }

  ghost function SilentRun(w: World, run: seq<Timed>): nat
    decreases |run|
  {
    if run == [] then 0
    else SilentEnds(w, run[0].at, run[0].event) + SilentRun(Step(w, run[0].at, run[0].event), run[1..])
  }

  lemma {:induction false} RunLoses(w: World, run: seq<Timed>)
    requires WorldOk(w) && ValidRun(w, run)
    ensures Lost(RunAll(w, run).core) == Lost(w.core) + SilentRun(w, run)
    decreases |run|
  {
    hide CoreOk, RxOk, Step, SilentEnds, Lost;
    if run != [] {
      var now, e := run[0].at, run[0].event;
      StepKeeps(w, now, e);
      Later(w.core, w.clock, now);
      if e.ReadBytes? {
        ReadLoses(w, now, e.chunk, e.oracle);
      } else {
        CallbackLoses(w, now, e);
      }
      RunLoses(Step(w, now, e), run[1..]);
    }
  }

  /** Over every run the unmatched starts are exactly the silent ends; so starts equal completions
      plus aborts plus active uploads if and only if the run has none. */
  lemma StartsMatched(now: nat, disk: map<bytes, bytes>, run: seq<Timed>)
    requires ValidRun(Start(now, disk), run)
    ensures var w := RunAll(Start(now, disk), run);
            var t := w.core.tally;
            && t.starts == t.completes + t.aborts + One(w.core.upload.active) + SilentRun(Start(now, disk), run)
            && (t.starts == t.completes + t.aborts + One(w.core.upload.active)
                <==> SilentRun(Start(now, disk), run) == 0)
  {
    hide WorldOk, ValidRun, RunAll, SilentRun;
    StartOk(now, disk);
    RunLoses(Start(now, disk), run);
  }
}
