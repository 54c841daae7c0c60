/** src/proc.c: one child process per session, its pipes, its timeouts and how a run ends. */
module Procs {
  import opened Bytes
  import opened Frame
  import opened Stream
  import opened SessionState
  import opened Kv
  import Transfers
  import Argv

  function PROC_ID(): bytes { Ascii("proc_id") }
  function TIMEOUT_MS(): bytes { Ascii("timeout_ms") }
  function IDLE_TIMEOUT_MS(): bytes { Ascii("idle_timeout_ms") }

  function SpawnReply(procId: u32, path: bytes): bytes {
    Ascii("status=ok\nproc_id=") + Decimal(procId) + Ascii("\npath=") + path
  }

  function KillReply(procId: u32): bytes {
    Ascii("status=ok\nproc_id=") + Decimal(procId)
  }

  function ReasonName(r: KillReason): bytes {
    match r
    case Requested => Ascii("killed")
    case Timeout => Ascii("timeout")
    case Idle => Ascii("idle_timeout")
    case NoKill => Ascii("exit")
  }

  function Signed(n: int): bytes {
    if n < 0 then Ascii("-") + Decimal(-n) else Decimal(n)
  }

  function ExitReply(procId: u32, code: int, r: KillReason): bytes {
    Ascii("status=ok\nproc_id=") + Decimal(procId) + Ascii("\nexit_code=") + Signed(code)
    + Ascii("\nreason=") + ReasonName(r)
  }

  // ---- On values ----

  function Reset(p: Proc): Proc {
    p.(active := false, stdoutClosed := false, stderrClosed := false, procId := 0, started := 0,
       lastIo := 0, timeout := 0, idleTimeout := 0, kill := NoKill, file := None, args := [])
  }

  predicate HandlesLive(p: Proc) {
    Live(p.process) || Live(p.stdoutPipe) || Live(p.stderrPipe)
  }

  function Note(p: Proc, e: ProcEvent): Proc {
    p.(log := p.log + [e])
  }

  function Succ(n: u32): u32 {
    if n + 1 == TWO_32 then 0 else n + 1
  }

  /** The slot when a spawn is tried. */
  function Attempt(p: Proc): Proc {
    Reset(p).(spawns := p.spawns + 1, overlapped := p.overlapped || HandlesLive(p))
  }

  /** The slot when uv_spawn is called. */
  function Prepared(p: Proc, id: u32, path: bytes, args: seq<bytes>, timeout: nat, idleTimeout: nat,
                    now: nat): Proc
  {
    Attempt(p).(file := Some(path), args := args, procId := id, started := now, lastIo := now,
                timeout := timeout, idleTimeout := idleTimeout)
  }

  /** The slot when it has succeeded. */
  function Launched(p: Proc, child: Child): Proc {
    Note(p.(active := true, process := Open, stdoutPipe := Open, stderrPipe := Open), Spawned(child))
  }

  /** A failed spawn closes the pipes it has initialised, without a callback. */
  function LeavePipes(p: Proc, launch: Launch): Proc {
    match launch
    case ErrPipeFailed(_) => p.(stdoutPipe := Detached)
    case SpawnRefused(_) => p.(stdoutPipe := Detached, stderrPipe := Detached)
    case _ => p
  }

  /** proc_spawn_common: with an ack for PROC_SPAWN frames, without for Lua. */
  function Spawn(c: Core, reqId: u32, path: bytes, args: seq<bytes>, timeout: nat, idleTimeout: nat,
                 ack: bool, now: nat, env: Env): Core
  {
    if c.proc.active then Fail(c, reqId, ProcBusy, now, env)
    else
      var id := c.nextProcId;
      var c1 := c.(nextProcId := Succ(id), proc := Attempt(c.proc));
      var launch := env.launch(c.proc.spawns);
      if !launch.ChildStarted? then
        Fail(c1.(proc := LeavePipes(c1.proc, launch)), reqId, SpawnFailed(launch.error), now, env)
      else
        var p := Prepared(c.proc, id, path, args, timeout, idleTimeout, now);
        var child := Child(id, path, args, timeout, idleTimeout, now);
        var c2 := c1.(proc := Launched(p, child), link := c.link.(closeRefs := c.link.closeRefs + 3));
        if ack then Acknowledge(c2, reqId, id, path, now, env) else c2
  }

  function Acknowledge(c: Core, reqId: u32, id: u32, path: bytes, now: nat, env: Env): Core {
    if |SpawnReply(id, path)| >= REPLY_CAP then Fail(c, reqId, ReplyOverflow, now, env)
    else Tell(c, Message(ACK, reqId, SpawnReply(id, path)), now, env)
  }

  function HandleSpawn(c: Core, reqId: u32, payload: bytes, now: nat, env: Env): Core {
    var path := Copy(payload, Transfers.PATH(), Transfers.PATH_CAP);
    if path.None? then Fail(c, reqId, MissingPath, now, env)
    else
      Spawn(c, reqId, path.value, Argv.Args(payload, path.value),
            CopyU64Or(payload, TIMEOUT_MS(), 60000), CopyU64Or(payload, IDLE_TIMEOUT_MS(), 10000),
            true, now, env)
  }

  /** proc_maybe_finalize: both pipes start closing and the slot is cleared. */
  function MaybeFinalize(p: Proc): Proc {
    if !p.active && p.stdoutClosed && p.stderrClosed then
      Note(Reset(p.(stdoutPipe := Closing, stderrPipe := Closing)), Finalized)
    else p
  }

  function ProcExit(c: Core, code: int, now: nat, env: Env): Core {
    var p := c.proc.(active := false, process := Closing);
    var text := ExitReply(p.procId, code, p.kill);
    var c1 := if |text| < REPLY_CAP then Tell(c, Message(EXIT, p.procId, text), now, env) else c;
    c1.(proc := MaybeFinalize(Note(p, ExitSent(p.procId, p.kill))))
  }

  function PipeKind(which: Pipe): byte {
    if which == Out then STDOUT else STDERR
  }

  function PipeData(c: Core, which: Pipe, data: bytes, now: nat, env: Env): Core {
    var c1 := c.(proc := Note(c.proc.(lastIo := now), Output(c.proc.procId, which, now)));
    Tell(c1, Message(PipeKind(which), c.proc.procId, data), now, env)
  }

  function PipeEof(c: Core, which: Pipe): Core {
    var p := if which == Out then c.proc.(stdoutClosed := true) else c.proc.(stderrClosed := true);
    c.(proc := MaybeFinalize(Note(p, Ended(which))))
  }

  function TryKill(p: Proc, r: KillReason): Proc {
    Note(p.(kill := r), KillTried(r))
  }

  function ProcIdIn(payload: bytes): Option<u32> {
    match Copy(payload, PROC_ID(), 32)
    case None => None
    case Some(v) =>
      match ParseU64(v)
      case None => None
      case Some(n) => Some(n % TWO_32)
  }

  function HandleKill(c: Core, reqId: u32, payload: bytes, now: nat, env: Env): Core {
    var id := ProcIdIn(payload);
    if id.None? then Fail(c, reqId, MissingProcId, now, env)
    else if !c.proc.active || c.proc.procId != id.value then Fail(c, reqId, NoProc, now, env)
    else
      var c1 := c.(proc := TryKill(c.proc, Requested));
      if !env.killOk then Fail(c1, reqId, KillFailed, now, env)
      else Tell(c1, Message(ACK, reqId, KillReply(id.value)), now, env)
  }

  function CheckProc(p: Proc, now: nat): Proc {
    if !p.active then p
    else if p.timeout > 0 && Transfers.Elapsed(now, p.started) >= p.timeout then TryKill(p, Timeout)
    else if p.idleTimeout > 0 && Transfers.Elapsed(now, p.lastIo) >= p.idleTimeout then TryKill(p, Idle)
    else p
  }

  /** proc_abort, when the session is freed. */
  function ProcAbort(p: Proc): Proc {
    if p.active then TryKill(p, Requested) else Reset(p)
  }

  // ---- In place ----

  method SpawnCommon(s: Session, reqId: u32, path: bytes, args: seq<bytes>, timeout: nat,
                     idleTimeout: nat, ack: bool, now: nat, env: Env)
    modifies s`net, s`proc, s`nextProcId
    ensures s.State() == Spawn(old(s.State()), reqId, path, args, timeout, idleTimeout, ack, now, env)
  {
    hide Send, SendError, Acknowledge, LeavePipes, Attempt, Prepared, Launched, Reset;
    ghost var p := s.proc;
    PreparedKeeps(p, s.nextProcId, path, args, timeout, idleTimeout, now, env.launch(p.spawns));
    if s.proc.active {
      SendErrorFrame(s, reqId, ProcBusy, now, env);
      return;
    }
    var launch := env.launch(s.proc.spawns);
    PrepareChild(s, path, args, timeout, idleTimeout, now);
    if !launch.ChildStarted? {
      ClosePipes(s, launch);
      s.proc := Reset(s.proc);
      SendErrorFrame(s, reqId, SpawnFailed(launch.error), now, env);
      return;
    }
    var id := s.proc.procId;
    s.proc := Launched(s.proc, Child(id, path, args, timeout, idleTimeout, now));
    s.net := s.net.(closeRefs := s.net.closeRefs + 3);
    if ack {
      SendSpawnReply(s, reqId, id, path, now, env);
    }
  }

  method SendSpawnReply(s: Session, reqId: u32, id: u32, path: bytes, now: nat, env: Env)
    modifies s`net
    ensures s.State() == Acknowledge(old(s.State()), reqId, id, path, now, env)
  {
    hide Send, SendError, SpawnReply;
    var reply := SpawnReply(id, path);
    if |reply| >= REPLY_CAP {
      SendErrorFrame(s, reqId, ReplyOverflow, now, env);
      return;
    }
    var _ := SendFrame(s, Message(ACK, reqId, reply), now, env);
  }

  /** uv_close without a callback on the pipes that were initialised. */
  method ClosePipes(s: Session, launch: Launch)
    modifies s`proc
    ensures s.proc == LeavePipes(old(s.proc), launch)
  {
    if launch.ErrPipeFailed? || launch.SpawnRefused? {
      s.proc := s.proc.(stdoutPipe := Detached);
    }
    if launch.SpawnRefused? {
      s.proc := s.proc.(stderrPipe := Detached);
    }
  }

  /** proc_reset after a failure leaves what the attempt did to the handles and counters. */
  lemma PreparedKeeps(p: Proc, id: u32, path: bytes, args: seq<bytes>, timeout: nat, idleTimeout: nat,
                      now: nat, launch: Launch)
    ensures var q := Prepared(p, id, path, args, timeout, idleTimeout, now);
            Reset(LeavePipes(q, launch)) == LeavePipes(Attempt(p), launch) && q.procId == id
  {
  }

  method PrepareChild(s: Session, path: bytes, args: seq<bytes>, timeout: nat, idleTimeout: nat, now: nat)
    modifies s`proc, s`nextProcId
    ensures s.nextProcId == Succ(old(s.nextProcId))
    ensures s.proc == Prepared(old(s.proc), old(s.nextProcId), path, args, timeout, idleTimeout, now)
  {
    hide HandlesLive;
    var overlapped := s.proc.overlapped || HandlesLive(s.proc);
    s.proc := Reset(s.proc).(overlapped := overlapped);
    s.proc := s.proc.(file := Some(path), args := args);
    s.proc := s.proc.(procId := s.nextProcId, started := now);
    s.nextProcId := Succ(s.nextProcId);
    s.proc := s.proc.(lastIo := s.proc.started, timeout := timeout, idleTimeout := idleTimeout);
    s.proc := s.proc.(spawns := s.proc.spawns + 1);
  }

  method HandleSpawnFrame(s: Session, reqId: u32, payload: bytes, now: nat, env: Env)
    requires |payload| <= MAX_FRAME_PAYLOAD
    modifies s`net, s`proc, s`nextProcId
    ensures s.State() == HandleSpawn(old(s.State()), reqId, payload, now, env)
  {
    hide Spawn, SendError, Copy, CopyU64, Argv.Args, TIMEOUT_MS, IDLE_TIMEOUT_MS, Transfers.PATH;
    var path := KvCopy(payload, Transfers.PATH(), Transfers.PATH_CAP);
    if path.None? {
      SendErrorFrame(s, reqId, MissingPath, now, env);
      return;
    }
    var args := Argv.BuildArgs(payload, path.value);
    var timeout := Transfers.KvU64(payload, TIMEOUT_MS());
    var idle := Transfers.KvU64(payload, IDLE_TIMEOUT_MS());
    SpawnCommon(s, reqId, path.value, args,
                if timeout.None? then 60000 else timeout.value,
                if idle.None? then 10000 else idle.value, true, now, env);
  }

  method FinalizeIfDone(s: Session)
    modifies s`proc
    ensures s.proc == MaybeFinalize(old(s.proc))
  {
    if !s.proc.active && s.proc.stdoutClosed && s.proc.stderrClosed {
      s.proc := s.proc.(stdoutPipe := Closing);
      s.proc := s.proc.(stderrPipe := Closing);
      s.proc := Note(Reset(s.proc), Finalized);
    }
  }

  method OnProcExit(s: Session, code: int, now: nat, env: Env)
    modifies s`net, s`proc
    ensures s.State() == ProcExit(old(s.State()), code, now, env)
  {
    hide Send, ExitReply, MaybeFinalize;
    s.proc := s.proc.(active := false);
    var reason := s.proc.kill;
    var text := ExitReply(s.proc.procId, code, reason);
    if |text| < REPLY_CAP {
      var _ := SendFrame(s, Message(EXIT, s.proc.procId, text), now, env);
    }
    s.proc := Note(s.proc, ExitSent(s.proc.procId, reason));
    s.proc := s.proc.(process := Closing);
    FinalizeIfDone(s);
  }

  method OnPipeData(s: Session, which: Pipe, data: bytes, now: nat, env: Env)
    modifies s`net, s`proc
    ensures s.State() == PipeData(old(s.State()), which, data, now, env)
  {
    s.proc := s.proc.(lastIo := now);
    s.proc := Note(s.proc, Output(s.proc.procId, which, now));
    var _ := SendFrame(s, Message(PipeKind(which), s.proc.procId, data), now, env);
  }

  method OnPipeEof(s: Session, which: Pipe)
    modifies s`proc
    ensures s.State() == PipeEof(old(s.State()), which)
  {
    hide MaybeFinalize;
    if which == Out {
      s.proc := s.proc.(stdoutClosed := true);
    } else {
      s.proc := s.proc.(stderrClosed := true);
    }
    s.proc := Note(s.proc, Ended(which));
    FinalizeIfDone(s);
  }

  method HandleKillFrame(s: Session, reqId: u32, payload: bytes, now: nat, env: Env)
    modifies s`net, s`proc
    ensures s.State() == HandleKill(old(s.State()), reqId, payload, now, env)
  {
    hide Send, SendError, Copy, KillReply, PROC_ID, ParseU64;
    var text := KvCopy(payload, PROC_ID(), 32);
    var id := if text.None? then None else ParseU64(text.value);
    if id.None? {
      SendErrorFrame(s, reqId, MissingProcId, now, env);
      return;
    }
    var procId := id.value % TWO_32;
    if !s.proc.active || s.proc.procId != procId {
      SendErrorFrame(s, reqId, NoProc, now, env);
      return;
    }
    s.proc := TryKill(s.proc, Requested);
    if !env.killOk {
      SendErrorFrame(s, reqId, KillFailed, now, env);
      return;
    }
    var _ := SendFrame(s, Message(ACK, reqId, KillReply(procId)), now, env);
  }

  method CheckProcTimeouts(s: Session, now: nat)
    modifies s`proc
    ensures s.proc == CheckProc(old(s.proc), now)
  {
    if !s.proc.active {
      return;
    }
    if s.proc.timeout > 0 && Transfers.Elapsed(now, s.proc.started) >= s.proc.timeout {
      s.proc := TryKill(s.proc, Timeout);
      return;
    }
    if s.proc.idleTimeout > 0 && Transfers.Elapsed(now, s.proc.lastIo) >= s.proc.idleTimeout {
      s.proc := TryKill(s.proc, Idle);
    }
  }
}
