/** Where detached pipes come from: only from a spawn that fails after a pipe was initialised. So on runs
    without such a failure the reference count is exact and a freed session is left alone. */
module Pipes {
  import opened Bytes
  import opened Frame
  import opened Stream
  import opened SessionState
  import opened Transfers
  import opened Procs
  import opened Protocol
  import opened Server
  import opened Lifetime
  import opened Invariants
  import opened Runs
  import opened Theorems
  import Kv
  import Argv

  /** Spawns start their child, or fail before they have initialised a pipe. */
  ghost predicate CleanLaunches(env: Env) {
    forall n: nat :: env.launch(n).ChildStarted? || env.launch(n).OutPipeFailed?
  }

  ghost predicate CleanOracle(env: Oracle) {
    forall k: nat :: CleanLaunches(env(k))
  }

  ghost predicate CleanEvent(e: Event) {
    e.ReadBytes? ==> CleanOracle(e.oracle)
  }

  /** Which pipes a spawn leaves to libuv without a reference, when libuv holds nothing of an earlier one:
      none if the first pipe cannot be made, the first if the second cannot, both if uv_spawn refuses; and
      none if the child starts, when both are open. A child adds three references and a failure none (a
      reply that closes the session adds its own). */
  lemma FailedSpawn(c: Core, reqId: u32, path: bytes, args: seq<bytes>, timeout: nat, idleTimeout: nat,
                    ack: bool, now: nat, env: Env)
    requires !c.proc.active && !HandlesLive(c.proc)
    ensures var launch, r := env.launch(c.proc.spawns), Spawn(c, reqId, path, args, timeout, idleTimeout, ack, now, env);
            var p := r.proc;
            && p.active == launch.ChildStarted?
            && (p.stdoutPipe == Detached <==> launch.ErrPipeFailed? || launch.SpawnRefused?)
            && (p.stderrPipe == Detached <==> launch.SpawnRefused?)
            && (p.stdoutPipe == Open <==> launch.ChildStarted?) && (p.stderrPipe == Open <==> launch.ChildStarted?)
            && (p.process == Open <==> launch.ChildStarted?)
            && r.link.closeRefs == c.link.closeRefs + (if launch.ChildStarted? then 3 else 0)
                                   + One(r.link.closed && !c.link.closed)
  {
    hide ErrorText, SpawnReply, EncodeMessage;
  }

  lemma SpawnAttached(c: Core, reqId: u32, path: bytes, args: seq<bytes>, timeout: nat, idleTimeout: nat,
                      ack: bool, now: nat, env: Env)
    requires DetachedPipes(c.proc) == 0 && CleanLaunches(env)
    ensures DetachedPipes(Spawn(c, reqId, path, args, timeout, idleTimeout, ack, now, env).proc) == 0
  {
    hide Send, SendError, SpawnReply;
    assert env.launch(c.proc.spawns).ChildStarted? || env.launch(c.proc.spawns).OutPipeFailed?;
  }

  lemma {:induction false} LuaStepsAttached(c: Core, acts: seq<LuaAction>, now: nat, env: Env)
    requires DetachedPipes(c.proc) == 0 && CleanLaunches(env)
    ensures DetachedPipes(LuaSteps(c, acts, now, env).proc) == 0
    decreases |acts|
  {
    hide Send, SendError, Spawn, CleanLaunches;
    if acts != [] {
      var a := acts[0];
      if a.SpawnTool? {
        SpawnAttached(c, 0, a.path, a.argv, a.timeoutMs, a.idleTimeoutMs, false, now, env);
      }
      LuaStepsAttached(LuaStep(c, a, now, env), acts[1..], now, env);
    }
  }

  /** The upload handlers leave the child alone. */
  lemma PutLeavesProc(c: Core, m: Message, now: nat, env: Env)
    requires m.kind == PUT_BEGIN || m.kind == PUT_CHUNK || m.kind == PUT_END
    ensures var r := Dispatch(c, m, now, env); r.proc == c.proc && r.nextProcId == c.nextProcId
  {
    hide Send, SendError, Abort, BeginReply, EndReply, OpenForWrite, WriteAt, CloseFd, FinalizeRename, Kv.Copy,
         Kv.CopyU64, Kv.CopyU64Or, PATH, SIZE, OVERWRITE, CHUNK_SIZE, ONE, Part;
  }

  lemma DispatchAttached(c: Core, m: Message, now: nat, env: Env)
    requires DetachedPipes(c.proc) == 0 && CleanLaunches(env)
    ensures DetachedPipes(Dispatch(c, m, now, env).proc) == 0
  {
    hide Send, SendError, PutBegin, PutChunk, PutEnd, GetBegin, LuaSteps, Spawn, Kv.Copy, Kv.CopyU64Or, KillReply,
         ProcIdIn, Argv.Args, HelloReply, PongReply, PATH, TIMEOUT_MS, IDLE_TIMEOUT_MS, CleanLaunches;
    if m.kind == PUT_BEGIN || m.kind == PUT_CHUNK || m.kind == PUT_END {
      PutLeavesProc(c, m, now, env);
    } else if m.kind == GET_BEGIN {
      GetBeginLeaves(c, m.reqId, m.payload, now, env);
    } else if m.kind == OP {
      LuaStepsAttached(c, env.lua, now, env);
    } else if m.kind == PROC_SPAWN {
      var path := Kv.Copy(m.payload, PATH(), PATH_CAP);
      if path.Some? {
        SpawnAttached(c, m.reqId, path.value, Argv.Args(m.payload, path.value),
                      Kv.CopyU64Or(m.payload, TIMEOUT_MS(), 60000),
                      Kv.CopyU64Or(m.payload, IDLE_TIMEOUT_MS(), 10000), true, now, env);
      }
    }
  }

  lemma {:induction false} ReceiveAllAttached(c: Core, ms: seq<Message>, now: nat, env: Oracle)
    requires DetachedPipes(c.proc) == 0 && CleanOracle(env)
    ensures DetachedPipes(ReceiveAll(c, ms, now, env).proc) == 0
    decreases |ms|
  {
    hide Dispatch, CleanLaunches;
    if ms != [] {
      assert CleanLaunches(env(c.framesRx));
      DispatchAttached(c.(framesRx := c.framesRx + 1, bytesRx := c.bytesRx + WireSize(ms[0])),
                       ms[0], now, env(c.framesRx));
      ReceiveAllAttached(Receive(c, ms[0], now, env), ms[1..], now, env);
    }
  }

  lemma CallbackAttached(c: Core, now: nat, e: Event)
    requires DetachedPipes(c.proc) == 0
    ensures DetachedPipes(Callback(c, now, e).proc) == 0
  {
    hide Send, Abort, ExitReply, PipeKind, CloseLink, MaybeFinalize, Tick, Release, WriteDone;
    forall p: Proc | DetachedPipes(p) == 0 ensures DetachedPipes(MaybeFinalize(p)) == 0 {
      FinalizeAttached(p);
    }
    match e
    case HeartbeatTick(env) => TickPipes(c, now, env);
    case TimerHandleClosed(env) => ReleaseProc(c.(link := c.link.(timer := Closed)), env);
    case TcpHandleClosed(env) => ReleaseProc(c.(link := c.link.(tcp := Closed)), env);
    case ProcessHandleClosed(env) => ReleaseProc(c.(proc := c.proc.(process := Closed)), env);
    case PipeHandleClosed(which, env) => ReleaseProc(c.(proc := WithPipeClosed(c.proc, which)), env);
    case _ =>
  }

  lemma FinalizeAttached(p: Proc)
    requires DetachedPipes(p) == 0
    ensures DetachedPipes(MaybeFinalize(p)) == 0
  {
  }

  lemma TickPipes(c: Core, now: nat, env: Env)
    ensures var p, q := c.proc, Tick(c, now, env).proc; q.stdoutPipe == p.stdoutPipe && q.stderrPipe == p.stderrPipe
  {
    hide Send, Elapsed, PingText, CloseLink, CheckUpload, CheckDownload, CheckProc;
    CheckLeaves(TickPing(c, now, env), now, env);
    CheckAttached(c.proc, now);
  }

  lemma CheckAttached(p: Proc, now: nat)
    ensures var q := CheckProc(p, now); q.stdoutPipe == p.stdoutPipe && q.stderrPipe == p.stderrPipe
  {
    hide Elapsed;
  }

  lemma ReleaseProc(c: Core, env: Env)
    ensures var p, q := c.proc, Release(c, env).proc; q.stdoutPipe == p.stdoutPipe && q.stderrPipe == p.stderrPipe
  {
    hide Abort;
  }

  lemma {:induction false} RunAttached(w: World, run: seq<Timed>)
    requires DetachedPipes(w.core.proc) == 0 && forall t <- run :: CleanEvent(t.event)
    ensures DetachedPipes(RunAll(w, run).core.proc) == 0
    decreases |run|
  {
    hide Parse, ReceiveAll, Callback, CloseLink, CleanOracle;
    if run != [] {
      var now, e := run[0].at, run[0].event;
      assert CleanEvent(e);
      if e.ReadBytes? {
        ReceiveAllAttached(w.core.(link := w.core.link.(lastRx := now)), Parse(w.rx + e.chunk).messages, now, e.oracle);
      } else {
        CallbackAttached(w.core, now, e);
      }
      RunAttached(Step(w, now, e), run[1..]);
    }
  }

  /** On every run in which no spawn fails after a pipe was initialised, and none is tried while libuv
      holds a handle of an earlier one: close_refs is exact, the session is freed once, when it is
      closed and nothing is outstanding, and after that no event can touch it. */
  lemma CleanRuns(now: nat, disk: map<bytes, bytes>, run: seq<Timed>)
    requires ValidRun(Start(now, disk), run) && forall t <- run :: CleanEvent(t.event)
    ensures var w := RunAll(Start(now, disk), run);
            !w.core.proc.overlapped ==>
              && w.core.link.closeRefs == Outstanding(w.core)
              && w.core.link.freed == (if w.core.link.closed && Outstanding(w.core) == 0 then 1 else 0)
              && (w.core.link.freed == 1 ==> forall e :: !Enabled(w, e))
  {
    hide ValidRun, RunAll, Enabled, CleanEvent, Outstanding, Start;
    var w := RunAll(Start(now, disk), run);
    assert Reachable(w);
    StartAttached(now, disk);
    RunAttached(Start(now, disk), run);
    if !w.core.proc.overlapped {
      ReferenceCounting(w);
      if w.core.link.freed == 1 {
        NothingAfterFree(w);
      }
    }
  }

  lemma StartAttached(now: nat, disk: map<bytes, bytes>)
    ensures DetachedPipes(Start(now, disk).core.proc) == 0
  {
  }
}
