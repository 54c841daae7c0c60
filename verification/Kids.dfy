/** The child of a session over whole runs: the slot is what an observer of the frames, of libuv's events
    and of the clock would write down, from what was asked for to what has ended. */
module Kids {
  import opened Bytes
  import opened Frame
  import opened Stream
  import opened SessionState
  import opened Transfers
  import opened Procs
  import opened Protocol
  import opened Server
  import opened Lifetime
  import opened Invariants
  import opened Runs
  import Kv
  import Argv
  import Pipes

  /** The run going on, the number of spawns tried, and what happened so far. No part of it is read from
      the session. */
  datatype Kid = Kid(phase: Phase, tries: nat, log: seq<ProcEvent>)

  const NO_KID: Kid := Kid(NoChild, 0, [])

  predicate IsActive(k: Kid) {
    k.phase.Running? && !k.phase.exited
  }

  /** The id of the n-th child tried, counting from zero. */
  function NthId(n: nat): u32 {
    (n + 1) % TWO_32
  }

  /** A spawn: nothing while a child runs; else a new run if the child starts. */
  function SeeSpawn(k: Kid, path: bytes, args: seq<bytes>, timeout: nat, idleTimeout: nat, now: nat, env: Env): Kid
  {
    if IsActive(k) then k
    else if !env.launch(k.tries).ChildStarted? then Kid(NoChild, k.tries + 1, k.log)
    else
      var child := Child(NthId(k.tries), path, args, timeout, idleTimeout, now);
      Kid(Running(child, now, NoKill, false, false, false), k.tries + 1, k.log + [Spawned(child)])
  }

  function SeeLua(k: Kid, acts: seq<LuaAction>, now: nat, env: Env): Kid
    decreases |acts|
  {
    if acts == [] then k
    else
      var a := acts[0];
      var next := if a.SpawnTool? && a.argv != []
                  then SeeSpawn(k, a.path, a.argv, a.timeoutMs, a.idleTimeoutMs, now, env) else k;
      SeeLua(next, acts[1..], now, env)
  }

  function SeeKill(k: Kid, r: KillReason): Kid
    requires k.phase.Running?
  {
    k.(phase := k.phase.(kill := r), log := k.log + [KillTried(r)])
  }

  /** PROC_SPAWN, OP and KILL are the frames that matter. */
  function SeeFrame(k: Kid, m: Message, now: nat, env: Env): Kid {
    if m.kind == PROC_SPAWN then
      match Kv.Copy(m.payload, PATH(), PATH_CAP)
      case None => k
      case Some(path) =>
        SeeSpawn(k, path, Argv.Args(m.payload, path), Kv.CopyU64Or(m.payload, TIMEOUT_MS(), 60000),
                 Kv.CopyU64Or(m.payload, IDLE_TIMEOUT_MS(), 10000), now, env)
    else if m.kind == OP then SeeLua(k, env.lua, now, env)
    else if m.kind == KILL && IsActive(k) && ProcIdIn(m.payload) == Some(k.phase.child.id) then SeeKill(k, Requested)
    else k
  }

  function SeeFrames(k: Kid, ms: seq<Message>, now: nat, env: Oracle, frames: nat): Kid
    decreases |ms|
  {
    if ms == [] then k else SeeFrames(SeeFrame(k, ms[0], now, env(frames)), ms[1..], now, env, frames + 1)
  }

  /** A run is over when the child has exited and both pipes have ended. */
  function Settled(k: Kid): Kid {
    if k.phase.Running? && k.phase.exited && k.phase.outEnded && k.phase.errEnded then
      k.(phase := NoChild, log := k.log + [Finalized])
    else k
  }

  /** A tick that finds the session open and not silent for 15 s: a child that has run for its timeout
      is killed for that, else one that was silent for its idle timeout; zero switches one off. */
  function SeeTick(k: Kid, l: Link, now: nat): Kid {
    if l.closed || now >= l.lastRx + SESSION_IDLE_MS || !IsActive(k) then k
    else
      var child := k.phase.child;
      if child.timeout > 0 && now >= child.started + child.timeout then SeeKill(k, Timeout)
      else if child.idleTimeout > 0 && now >= k.phase.lastIo + child.idleTimeout then SeeKill(k, Idle)
      else k
  }

  function SeeCallback(k: Kid, l: Link, now: nat, e: Event): Kid {
    if e.HeartbeatTick? then SeeTick(k, l, now)
    else if k.phase.NoChild? then k
    else
      match e
      case ChildOutput(pipe, _, _) =>
        k.(phase := k.phase.(lastIo := now), log := k.log + [Output(k.phase.child.id, pipe, now)])
      case ChildEof(Out) => Settled(k.(phase := k.phase.(outEnded := true), log := k.log + [Ended(Out)]))
      case ChildEof(Err) => Settled(k.(phase := k.phase.(errEnded := true), log := k.log + [Ended(Err)]))
      case ChildExited(_, _) =>
        Settled(k.(phase := k.phase.(exited := true), log := k.log + [ExitSent(k.phase.child.id, k.phase.kill)]))
      case _ => k
  }

  function See(k: Kid, w: World, now: nat, e: Event): Kid {
    if !e.ReadBytes? then SeeCallback(k, w.core.link, now, e)
    else if |w.rx| + |e.chunk| > RX_CAP then k
    else SeeFrames(k, Parse(w.rx + e.chunk).messages, now, e.oracle, w.core.framesRx)
  }

  ghost function SeeAll(k: Kid, w: World, run: seq<Timed>): Kid
    decreases |run|
  {
    if run == [] then k else SeeAll(See(k, w, run[0].at, run[0].event), Step(w, run[0].at, run[0].event), run[1..])
  }

  /** The slot is the observed run, and the next id is that of the next child, unless a spawn
      overlapped. */
  predicate KidOk(k: Kid, c: Core) {
    !c.proc.overlapped ==>
      && PhaseOf(c.proc) == k.phase && c.proc.log == k.log
      && c.proc.spawns == k.tries && c.nextProcId == NthId(k.tries)
  }

  // ---- Frames ----

  lemma ActiveIs(k: Kid, c: Core, now: nat)
    requires KidOk(k, c) && ProcOk(c.proc, now) && !c.proc.overlapped
    ensures c.proc.active <==> IsActive(k)
  {
  }

  lemma NextId(n: nat)
    ensures Succ(NthId(n)) == NthId(n + 1)
  {
  }

  lemma SpawnSeen(k: Kid, c: Core, reqId: u32, path: bytes, args: seq<bytes>, timeout: nat, idleTimeout: nat,
                  ack: bool, now: nat, env: Env)
    requires KidOk(k, c) && ProcOk(c.proc, now)
    ensures KidOk(SeeSpawn(k, path, args, timeout, idleTimeout, now, env),
                  Spawn(c, reqId, path, args, timeout, idleTimeout, ack, now, env))
  {
    hide Send, SendError, SpawnReply, NthId, Trace, Succ;
    if !c.proc.overlapped {
      ActiveIs(k, c, now);
      NextId(k.tries);
    }
  }

  lemma {:induction false} LuaSeen(k: Kid, c: Core, acts: seq<LuaAction>, now: nat, env: Env)
    requires KidOk(k, c) && CoreOk(c, now) && c.link.tcp != Closed
    ensures KidOk(SeeLua(k, acts, now, env), LuaSteps(c, acts, now, env))
    decreases |acts|
  {
    hide Send, SendError, LinkOk, ProcOk, UploadOk, Spawn, SeeSpawn, NthId;
    if acts != [] {
      var a := acts[0];
      SendsKeep(c.link, c.proc, now, env);
      var next := k;
      if a.SpawnTool? && a.argv != [] {
        SpawnKeeps(c, 0, a.path, a.argv, a.timeoutMs, a.idleTimeoutMs, false, now, env);
        SpawnSeen(k, c, 0, a.path, a.argv, a.timeoutMs, a.idleTimeoutMs, false, now, env);
        next := SeeSpawn(k, a.path, a.argv, a.timeoutMs, a.idleTimeoutMs, now, env);
      }
      LuaSeen(next, LuaStep(c, a, now, env), acts[1..], now, env);
    }
  }

  lemma KillSeen(k: Kid, c: Core, m: Message, now: nat, env: Env)
    requires KidOk(k, c) && ProcOk(c.proc, now) && m.kind == KILL
    ensures KidOk(SeeFrame(k, m, now, env), Dispatch(c, m, now, env))
  {
    hide Send, SendError, KillReply, ProcIdIn, NthId, Trace;
    if !c.proc.overlapped {
      ActiveIs(k, c, now);
    }
  }

  lemma FrameSeen(k: Kid, c: Core, m: Message, now: nat, env: Env)
    requires KidOk(k, c) && CoreOk(c, now) && c.link.tcp != Closed
    ensures KidOk(SeeFrame(k, m, now, env), Dispatch(c, m, now, env))
  {
    hide Send, SendError, PutBegin, PutChunk, PutEnd, GetBegin, LuaSteps, SeeLua, Spawn, SeeSpawn, Kv.Copy,
         Kv.CopyU64Or, HandleKill, ProcIdIn, Argv.Args, HelloReply, PongReply, PATH, TIMEOUT_MS, IDLE_TIMEOUT_MS,
         LinkOk, ProcOk, UploadOk, PhaseOf, NthId;
    if m.kind == PUT_BEGIN || m.kind == PUT_CHUNK || m.kind == PUT_END {
      Pipes.PutLeavesProc(c, m, now, env);
    } else if m.kind == GET_BEGIN {
      GetBeginLeaves(c, m.reqId, m.payload, now, env);
    } else if m.kind == OP {
      LuaSeen(k, c, env.lua, now, env);
    } else if m.kind == KILL {
      KillSeen(k, c, m, now, env);
    } else if m.kind == PROC_SPAWN {
      var path := Kv.Copy(m.payload, PATH(), PATH_CAP);
      if path.Some? {
        SpawnSeen(k, c, m.reqId, path.value, Argv.Args(m.payload, path.value),
                  Kv.CopyU64Or(m.payload, TIMEOUT_MS(), 60000),
                  Kv.CopyU64Or(m.payload, IDLE_TIMEOUT_MS(), 10000), true, now, env);
      }
    }
  }

  lemma {:induction false} FramesSeen(k: Kid, c: Core, ms: seq<Message>, now: nat, env: Oracle)
    requires KidOk(k, c) && CoreOk(c, now) && c.link.tcp != Closed && forall m <- ms :: ValidMessage(m)
    ensures KidOk(SeeFrames(k, ms, now, env, c.framesRx), ReceiveAll(c, ms, now, env))
    decreases |ms|
  {
    hide LinkOk, ProcOk, UploadOk, Dispatch, SeeFrame, PhaseOf, NthId;
    if ms != [] {
      var m := ms[0];
      var counted := c.(framesRx := c.framesRx + 1, bytesRx := c.bytesRx + WireSize(m));
      DispatchKeeps(counted, m, now, env(c.framesRx));
      DispatchLeaves(counted, m, now, env(c.framesRx));
      FrameSeen(k, counted, m, now, env(c.framesRx));
      FramesSeen(SeeFrame(k, m, now, env(c.framesRx)), Receive(c, m, now, env), ms[1..], now, env);
    }
  }

  // ---- Events ----

  lemma EndSeen(k: Kid, c: Core, which: Pipe, now: nat)
    requires KidOk(k, c) && ProcOk(c.proc, now) && PipeHandle(c.proc, which) == Open
    ensures KidOk(SeeCallback(k, c.link, now, ChildEof(which)), PipeEof(c, which))
  {
    hide Trace, NthId;
  }

  lemma OutputSeen(k: Kid, c: Core, which: Pipe, data: bytes, now: nat, env: Env)
    requires KidOk(k, c) && ProcOk(c.proc, now) && PipeHandle(c.proc, which) == Open
    ensures KidOk(SeeCallback(k, c.link, now, ChildOutput(which, data, env)), PipeData(c, which, data, now, env))
  {
    hide Trace, NthId, Send, PipeKind;
  }

  lemma ExitSeen(k: Kid, c: Core, code: int, now: nat, env: Env)
    requires KidOk(k, c) && ProcOk(c.proc, now) && c.proc.process == Open
    ensures KidOk(SeeCallback(k, c.link, now, ChildExited(code, env)), ProcExit(c, code, now, env))
  {
    hide Trace, NthId, Send, ExitReply;
  }

  lemma CheckSeen(k: Kid, c: Core, now: nat)
    requires KidOk(k, c) && ProcOk(c.proc, now) && now < TWO_64 && c.link.lastRx <= now
    ensures var open := !c.link.closed && now < c.link.lastRx + SESSION_IDLE_MS;
            KidOk(SeeTick(k, c.link, now), c.(proc := if open then CheckProc(c.proc, now) else c.proc))
  {
    hide Trace, NthId, Elapsed;
    ElapsedExact(now, c.proc.started);
    ElapsedExact(now, c.proc.lastIo);
    if !c.proc.overlapped {
      ActiveIs(k, c, now);
    }
  }

  lemma ReleaseSeen(k: Kid, c: Core, now: nat, env: Env)
    requires KidOk(k, c) && ProcOk(c.proc, now) && LinkOk(Returned(c.link), c.proc, now)
    ensures KidOk(k, Release(c, env))
  {
    hide Abort, Trace, NthId;
  }

  lemma CallbackSeen(k: Kid, w: World, now: nat, e: Event)
    requires KidOk(k, w.core) && CoreOk(w.core, now) && Enabled(w, e) && !e.ReadBytes? && now < TWO_64
    ensures KidOk(SeeCallback(k, w.core.link, now, e), Callback(w.core, now, e))
  {
    hide LinkOk, ProcOk, UploadOk, NthId, Tick, Release, ProcExit, PipeEof, PipeData, SeeTick, WriteDone,
         CloseLink;
    var c := w.core;
    match e
    case HeartbeatTick(env) =>
      LinkStamps(c.link, c.proc, now);
      TickProc(c, now, env);
      CheckSeen(k, c, now);
    case ChildExited(code, env) => ExitSeen(k, c, code, now, env);
    case ChildOutput(which, data, env) => OutputSeen(k, c, which, data, now, env);
    case ChildEof(which) => EndSeen(k, c, which, now);
    case TimerHandleClosed(env) =>
      ConnectionGivesBack(c.link, c.proc, now);
      ReleaseSeen(k, c.(link := c.link.(timer := Closed)), now, env);
    case TcpHandleClosed(env) =>
      ConnectionGivesBack(c.link, c.proc, now);
      ReleaseSeen(k, c.(link := c.link.(tcp := Closed)), now, env);
    case ProcessHandleClosed(env) =>
      ProcessGivesBack(c.link, c.proc, now);
      ReleaseSeen(k, c.(proc := c.proc.(process := Closed)), now, env);
    case PipeHandleClosed(which, env) =>
      PipeGivesBack(c.link, c.proc, which, now);
      PipesTogether(c.proc, which, now);
      ReleaseSeen(k, c.(proc := WithPipeClosed(c.proc, which)), now, env);
    case DetachedPipeClosed(which) => PipesTogether(c.proc, which, now);
    case _ =>
  }

  lemma PipesTogether(p: Proc, which: Pipe, now: nat)
    requires ProcOk(p, now) && PipeHandle(p, which) != Open
    ensures !p.overlapped ==> p.stdoutPipe != Open
  {
    hide Trace;
  }

  // ---- Whole runs ----

  lemma StepSeen(k: Kid, w: World, now: nat, e: Event)
    requires WorldOk(w) && w.clock <= now < TWO_64 && Enabled(w, e) && KidOk(k, w.core)
    ensures KidOk(See(k, w, now, e), Step(w, now, e).core)
  {
    hide LinkOk, ProcOk, UploadOk, First, Parse, ReceiveAll, SeeFrames, Callback, SeeCallback, PhaseOf, NthId;
    Later(w.core, w.clock, now);
    if e.ReadBytes? {
      var c1 := w.core.(link := w.core.link.(lastRx := now));
      HeardKeeps(w.core.link, w.core.proc, now);
      ParseValid(w.rx + e.chunk);
      FramesSeen(k, c1, Parse(w.rx + e.chunk).messages, now, e.oracle);
    } else {
      CallbackSeen(k, w, now, e);
    }
  }

  lemma {:induction false} RunSeen(k: Kid, w: World, run: seq<Timed>)
    requires WorldOk(w) && ValidRun(w, run) && KidOk(k, w.core)
    ensures KidOk(SeeAll(k, w, run), RunAll(w, run).core)
    decreases |run|
  {
    hide WorldOk, Step, Enabled, See, KidOk;
    if run != [] {
      StepKeeps(w, run[0].at, run[0].event);
      StepSeen(k, w, run[0].at, run[0].event);
      RunSeen(See(k, w, run[0].at, run[0].event), Step(w, run[0].at, run[0].event), run[1..]);
    }
  }

  lemma StartSeen(now: nat, disk: map<bytes, bytes>)
    ensures KidOk(NO_KID, Start(now, disk).core)
  {
  }

  ghost function Seen(now: nat, disk: map<bytes, bytes>, run: seq<Timed>): Kid {
    SeeAll(NO_KID, Start(now, disk), run)
  }

  /** After any run without an overlapping spawn: the child slot is the observed run, field by field:
      the path, arguments, time limits and start of the child as asked for, its id the number of
      spawns tried, the time of its last output, the last kill, and what of it has ended; and there is
      no child exactly when its exit and both pipe ends were seen, or none was started. */
  lemma ChildRefines(now: nat, disk: map<bytes, bytes>, run: seq<Timed>)
    requires ValidRun(Start(now, disk), run)
    ensures var k, p := Seen(now, disk, run), RunAll(Start(now, disk), run).core.proc;
            !p.overlapped ==>
              && (k.phase.NoChild? <==> p.stdoutPipe != Open)
              && (p.active <==> IsActive(k))
              && p.spawns == k.tries && p.log == k.log
              && (k.phase.Running? ==>
                    var child := k.phase.child;
                    && p.procId == child.id && p.file == Some(child.path) && p.args == child.args
                    && p.timeout == child.timeout && p.idleTimeout == child.idleTimeout && p.started == child.started
                    && p.lastIo == k.phase.lastIo && p.kill == k.phase.kill
                    && p.stdoutClosed == k.phase.outEnded && p.stderrClosed == k.phase.errEnded)
  {
    hide ValidRun, RunAll, SeeAll, LinkOk, UploadOk, First, Trace, NthId;
    StartOk(now, disk);
    StartSeen(now, disk);
    RunSeen(NO_KID, Start(now, disk), run);
    var w := RunAll(Start(now, disk), run);
    assert Reachable(w);
    ReachableOk(w);
    if !w.core.proc.overlapped {
      ActiveIs(Seen(now, disk, run), w.core, w.clock);
    }
  }
}
