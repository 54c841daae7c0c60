/** Whole runs of a session: any interleaving of reads, ticks, write completions, child events and
    handle-close callbacks that libuv may deliver. */
module Runs {
  import opened Bytes
  import opened Frame
  import opened Stream
  import opened SessionState
  import opened Transfers
  import opened Procs
  import opened Protocol
  import opened Server
  import opened Lifetime
  import opened Invariants
  import Kv
  import Argv

  datatype Timed = Timed(at: nat, event: Event)

  /** The clock does not go back and stays below 2^64 ms, and each event is one libuv may deliver. */
  ghost predicate ValidRun(w: World, run: seq<Timed>)
    decreases |run|
  {
    run == [] ||
    (w.clock <= run[0].at < TWO_64 && Enabled(w, run[0].event)
     && ValidRun(Step(w, run[0].at, run[0].event), run[1..]))
  }

  ghost function RunAll(w: World, run: seq<Timed>): World
    decreases |run|
  {
    if run == [] then w else RunAll(Step(w, run[0].at, run[0].event), run[1..])
  }

  ghost predicate Reachable(w: World) {
    exists now: nat, disk: map<bytes, bytes>, run: seq<Timed> ::
      ValidRun(Start(now, disk), run) && w == RunAll(Start(now, disk), run)
  }

  /** On an open session the buffer holds less than one frame, and every byte taken from the socket
      is either counted with its frame or still in the buffer. */
  predicate RxOk(w: World) {
    !w.core.link.closed ==>
      First(w.rx).Incomplete? && |w.rx| <= RX_CAP && w.core.bytesRx + |w.rx| == w.taken
  }

  predicate WorldOk(w: World) {
    CoreOk(w.core, w.clock) && RxOk(w)
  }

  // ---- What the handlers leave alone ----

  function WireSizes(ms: seq<Message>): nat {
    if ms == [] then 0 else WireSize(ms[0]) + WireSizes(ms[1..])
  }

  lemma {:induction false} ParseAccounts(b: bytes)
    ensures WireSizes(Parse(b).messages) + |Parse(b).rest| == |b|
    decreases |b|
  {
    hide DecodeHeader;
    if First(b).Complete? {
      FirstSize(b);
      var m := First(b).message;
      ParseAccounts(b[WireSize(m)..]);
      assert Parse(b).messages[1..] == Parse(b[WireSize(m)..]).messages;
    }
  }

  /** The account of received frames and bytes stays, and the time stamps are right. */
  predicate Left(c: Core, r: Core, now: nat) {
    r.bytesRx == c.bytesRx && r.framesRx == c.framesRx && Stamped(c.link, r.link, now)
  }

  lemma {:induction false} LuaStepsLeave(c: Core, acts: seq<LuaAction>, now: nat, env: Env)
    ensures Left(c, LuaSteps(c, acts, now, env), now)
    decreases |acts|
  {
    hide Send, SendError, Spawn;
    if acts != [] {
      var a := acts[0];
      SendsLeave(c.link, now, env);
      if a.SpawnTool? {
        SpawnLeaves(c, 0, a.path, a.argv, a.timeoutMs, a.idleTimeoutMs, false, now, env);
      }
      LuaStepsLeave(LuaStep(c, a, now, env), acts[1..], now, env);
    }
  }

  lemma {:induction false} GetChunksLeave(c: Core, now: nat, env: Env)
    ensures var r := GetChunks(c, now, env); Left(c, r, now) && r.proc == c.proc && r.nextProcId == c.nextProcId
    decreases c.download.total - c.download.offset
  {
    hide Send, SendError, ReadAt, CloseFd, Abort;
    var d := c.download;
    SendsLeave(c.link, now, env);
    if d.offset < d.total {
      var data := ReadAt(c.fs, d.file, d.offset, Min(d.chunkSize, d.total - d.offset), env);
      if data.Some? {
        var (l, sent) := Send(c.link, Message(GET_CHUNK, d.reqId, data.value), now, env);
        if sent {
          GetChunksLeave(c.(link := l, download := d.(offset := d.offset + |data.value|, progress := now)),
                         now, env);
        }
      }
    }
  }

  lemma GetOpenedLeaves(c: Core, reqId: u32, path: bytes, now: nat, env: Env)
    ensures var r := GetOpened(c, reqId, path, now, env);
            Left(c, r, now) && r.proc == c.proc && r.nextProcId == c.nextProcId
  {
    hide Send, SendError, Abort, BeginReply, GetChunks;
    SendsLeave(c.link, now, env);
    var total := FileSize(c.fs, path);
    var d := c.download.(active := true, mode := Download, reqId := reqId, total := total,
                         offset := 0, progress := now);
    var (l, sent) := Send(c.link, Message(ACK, reqId, BeginReply(reqId, path, total)), now, env);
    GetChunksLeave(c.(download := d, tally := Started(c.tally), link := l), now, env);
  }

  lemma GetBeginLeaves(c: Core, reqId: u32, payload: bytes, now: nat, env: Env)
    ensures var r := GetBegin(c, reqId, payload, now, env);
            Left(c, r, now) && r.proc == c.proc && r.nextProcId == c.nextProcId
  {
    hide Send, SendError, OpenForRead, Abort, GetOpened, ChunkSize, PATH, Kv.Copy;
    SendsLeave(c.link, now, env);
    var path := Kv.Copy(payload, PATH(), PATH_CAP);
    if path.Some? {
      var (fs, fd) := OpenForRead(c.fs, path.value, env);
      var d := c.download.(path := path, chunkSize := ChunkSize(payload), file := fd);
      GetOpenedLeaves(c.(fs := fs, download := d), reqId, path.value, now, env);
    }
  }

  lemma DispatchLeaves(c: Core, m: Message, now: nat, env: Env)
    ensures Left(c, Dispatch(c, m, now, env), now)
  {
    hide Send, SendError, GetBegin, LuaSteps, Abort, BeginReply, EndReply, OpenForWrite, WriteAt, CloseFd,
         FinalizeRename, Kv.Copy, Kv.CopyU64, Kv.CopyU64Or, KillReply, ProcIdIn, Argv.Args, HelloReply, Spawn,
         PongReply, PATH, SIZE, OVERWRITE, CHUNK_SIZE, ONE, Part, TIMEOUT_MS, IDLE_TIMEOUT_MS;
    SendsLeave(c.link, now, env);
    if m.kind == GET_BEGIN {
      GetBeginLeaves(c, m.reqId, m.payload, now, env);
    } else if m.kind == OP {
      LuaStepsLeave(c, env.lua, now, env);
      SendsLeave(LuaSteps(c, env.lua, now, env).link, now, env);
    } else if m.kind == PROC_SPAWN {
      var path := Kv.Copy(m.payload, PATH(), PATH_CAP);
      if path.Some? {
        SpawnLeaves(c, m.reqId, path.value, Argv.Args(m.payload, path.value),
                    Kv.CopyU64Or(m.payload, TIMEOUT_MS(), 60000),
                    Kv.CopyU64Or(m.payload, IDLE_TIMEOUT_MS(), 10000), true, now, env);
      }
    }
  }

  lemma {:induction false} ReceiveAllCounts(c: Core, ms: seq<Message>, now: nat, env: Oracle)
    ensures var r := ReceiveAll(c, ms, now, env);
            && r.bytesRx == c.bytesRx + WireSizes(ms) && r.framesRx == c.framesRx + |ms|
            && Stamped(c.link, r.link, now)
    decreases |ms|
  {
    hide Dispatch;
    if ms != [] {
      DispatchLeaves(c.(framesRx := c.framesRx + 1, bytesRx := c.bytesRx + WireSize(ms[0])),
                     ms[0], now, env(c.framesRx));
      ReceiveAllCounts(Receive(c, ms[0], now, env), ms[1..], now, env);
    }
  }

  lemma TickLeaves(c: Core, now: nat, env: Env)
    ensures var r := Tick(c, now, env); Left(c, r, now) && (c.link.closed ==> r.link.closed)
  {
    hide Send, SendError, Abort, CheckProc, Elapsed, PingText;
    SendsLeave(c.link, now, env);
    var c1 := TickPing(c, now, env);
    SendsLeave(c1.link, now, env);
    SendsLeave(CheckUpload(c1, now, env).link, now, env);
  }

  /** A callback neither counts received bytes nor reopens a session. */
  lemma CallbackLeaves(c: Core, now: nat, e: Event)
    requires CoreOk(c, now) && now < TWO_64
    ensures Left(c, Callback(c, now, e), now)
    ensures c.link.closed ==> Callback(c, now, e).link.closed
  {
    hide Send, Abort, MaybeFinalize, ExitReply, ProcAbort, ProcOk, UploadOk, Tick;
    if e.HeartbeatTick? {
      TickLeaves(c, now, e.env);
    }
    if e.ChildExited? || e.ChildOutput? {
      SendsLeave(c.link, now, e.env);
    }
    if e.ChildExited? {
      SendTimes(c.link, Message(EXIT, c.proc.procId, ExitReply(c.proc.procId, e.code, c.proc.kill)), now, e.env);
    }
    if e.ChildOutput? {
      SendTimes(c.link, Message(PipeKind(e.pipe), c.proc.procId, e.data), now, e.env);
    }
  }

  // ---- Every step keeps everything ----

  lemma ReadRxOk(w: World, now: nat, chunk: bytes, env: Oracle)
    requires WorldOk(w) && w.core.link.tcp == Open && |chunk| <= READ_CHUNK
    ensures RxOk(Step(w, now, ReadBytes(chunk, env)))
  {
    hide CoreOk, Parse, First, ReceiveAll, CloseLink;
    assert !w.core.link.closed by { OpenNotClosed(w.core, w.clock); }
    var whole := w.rx + chunk;
    if |whole| <= RX_CAP {
      ParseAccounts(whole);
      ParseSizes(whole);
      ReceiveAllCounts(w.core.(link := w.core.link.(lastRx := now)), Parse(whole).messages, now, env);
    }
    ClosedClosed();
  }

  lemma OpenNotClosed(c: Core, now: nat)
    requires CoreOk(c, now) && c.link.tcp == Open
    ensures !c.link.closed
  {
  }

  lemma ClosedClosed()
    ensures forall l: Link :: CloseLink(l).closed
  {
  }

  lemma StepKeeps(w: World, now: nat, e: Event)
    requires WorldOk(w) && w.clock <= now < TWO_64 && Enabled(w, e)
    ensures WorldOk(Step(w, now, e))
  {
    hide CoreOk, Read, Callback, First;
    Later(w.core, w.clock, now);
    if e.ReadBytes? {
      ReadKeeps(w.rx, w.core, e.chunk, now, e.oracle);
      ReadRxOk(w, now, e.chunk, e.oracle);
    } else {
      CallbackKeeps(w, now, e);
      CallbackLeaves(w.core, now, e);
    }
  }

  lemma {:induction false} RunKeeps(w: World, run: seq<Timed>)
    requires WorldOk(w) && ValidRun(w, run)
    ensures WorldOk(RunAll(w, run))
    decreases |run|
  {
    hide WorldOk, Step, Enabled;
    if run != [] {
      StepKeeps(w, run[0].at, run[0].event);
      RunKeeps(Step(w, run[0].at, run[0].event), run[1..]);
    }
  }

  lemma FreshSlots(now: nat, disk: map<bytes, bytes>)
    ensures UploadOk(IDLE, Fs(disk, map[], 0), now)
    ensures ProcOk(NO_PROC, now)
  {
    hide BeginReply, Part;
  }

  lemma FreshLink(now: nat)
    ensures LinkOk(Link(false, true, 1, Open, Open, 0, 0, [], now, now, 0, 0, now), NO_PROC, now)
  {
  }

  lemma StartOk(now: nat, disk: map<bytes, bytes>)
    ensures WorldOk(Start(now, disk))
  {
    hide LinkOk, ProcOk, UploadOk;
    FreshSlots(now, disk);
    FreshLink(now);
  }

  /** The invariant holds in every reachable state. */
  lemma ReachableOk(w: World)
    requires Reachable(w)
    ensures WorldOk(w)
  {
    hide WorldOk, Start;
    var now, disk, run :| ValidRun(Start(now, disk), run) && w == RunAll(Start(now, disk), run);
    StartOk(now, disk);
    RunKeeps(Start(now, disk), run);
  }

  // ---- The time of the last send ----

  /** The time of the last event of a run that handed a frame to uv_write. */
  ghost function LastSent(at: nat, w: World, run: seq<Timed>): nat
    decreases |run|
  {
    if run == [] then at
    else
      var s := Step(w, run[0].at, run[0].event);
      LastSent(if s.core.link.framesTx > w.core.link.framesTx then run[0].at else at, s, run[1..])
  }

  lemma ReadStamps(w: World, now: nat, chunk: bytes, env: Oracle)
    ensures var r := Step(w, now, ReadBytes(chunk, env)).core; Stamped(w.core.link.(lastRx := now), r.link, now)
  {
    hide Parse, ReceiveAll;
    ReceiveAllCounts(w.core.(link := w.core.link.(lastRx := now)), Parse(w.rx + chunk).messages, now, env);
  }

  lemma {:induction false} SentTimes(w: World, run: seq<Timed>)
    requires WorldOk(w) && ValidRun(w, run)
    ensures RunAll(w, run).core.link.lastTx == LastSent(w.core.link.lastTx, w, run)
    decreases |run|
  {
    hide CoreOk, RxOk, Read, Callback;
    if run != [] {
      var now, e := run[0].at, run[0].event;
      StepKeeps(w, now, e);
      if e.ReadBytes? {
        ReadStamps(w, now, e.chunk, e.oracle);
      } else {
        Later(w.core, w.clock, now);
        CallbackLeaves(w.core, now, e);
      }
      SentTimes(Step(w, now, e), run[1..]);
    }
  }

  /** Over every run the stamp that the heartbeat reads is the time of the last frame handed to uv_write,
      and that of the accept if there was none. */
  lemma LastTxIsLastSent(now: nat, disk: map<bytes, bytes>, run: seq<Timed>)
    requires ValidRun(Start(now, disk), run)
    ensures RunAll(Start(now, disk), run).core.link.lastTx == LastSent(now, Start(now, disk), run)
  {
    hide WorldOk, ValidRun, RunAll, LastSent;
    StartOk(now, disk);
    SentTimes(Start(now, disk), run);
  }

  // ---- Building runs ----

  lemma {:induction false} RunSnoc(w: World, run: seq<Timed>, t: Timed)
    requires ValidRun(w, run)
    requires var s := RunAll(w, run); s.clock <= t.at < TWO_64 && Enabled(s, t.event)
    ensures ValidRun(w, run + [t]) && RunAll(w, run + [t]) == Step(RunAll(w, run), t.at, t.event)
    decreases |run|
  {
    hide Step, Enabled;
    var more := run + [t];
    if run == [] {
      assert more[1..] == [];
    } else {
      assert more[0] == run[0] && more[1..] == run[1..] + [t];
      RunSnoc(Step(w, run[0].at, run[0].event), run[1..], t);
    }
  }

  lemma OneFrame(m: Message)
    requires ValidMessage(m)
    ensures Parse(EncodeMessage(m)) == Parsed([m], [], false)
  {
    hide EncodeMessage;
    ParseEncoded([m]);
    assert EncodeAll([m]) == EncodeMessage(m) + EncodeAll([]) == EncodeMessage(m);
  }

  /** A read of exactly one frame. */
  lemma ReadFrame(w: World, m: Message, now: nat, env: Oracle)
    requires ValidMessage(m) && WireSize(m) <= READ_CHUNK && w.rx == []
    ensures Step(w, now, ReadBytes(EncodeMessage(m), env))
         == World([], Receive(w.core.(link := w.core.link.(lastRx := now)), m, now, env), now, w.taken + WireSize(m))
  {
    hide EncodeMessage, Parse, Receive;
    OneFrame(m);
    assert [] + EncodeMessage(m) == EncodeMessage(m);
    var ms: seq<Message> := [m];
    assert ms[1..] == [];
    var c1 := w.core.(link := w.core.link.(lastRx := now));
    assert ReceiveAll(c1, ms, now, env) == Receive(c1, m, now, env);
  }
}
