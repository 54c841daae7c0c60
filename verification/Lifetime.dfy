/** The callbacks of src/session.c and src/proc.c that end things: handle-close callbacks, the release
    of the last reference, and the heartbeat tick; and the session as a machine driven by events. */
module Lifetime {
  import opened Bytes
  import opened Frame
  import opened Stream
  import opened SessionState
  import opened Transfers
  import opened Procs
  import opened Protocol
  import opened Server

  function PingText(): bytes { Ascii("status=ping") }

  // ---- On values ----

  /** maybe_free_session: one reference less; the last one frees the session. */
  function Release(c: Core, env: Env): Core {
    var l := c.link.(closeRefs := c.link.closeRefs - 1);
    if l.closeRefs > 0 then c.(link := l)
    else
      var c1 := AbortDownload(AbortUpload(c, env), env);
      c1.(link := l.(freed := l.freed + 1), proc := ProcAbort(c1.proc))
  }

  function TickPing(c: Core, now: nat, env: Env): Core {
    if Elapsed(now, c.link.lastTx) >= HEARTBEAT_IDLE_MS then
      Tell(c.(nextReqId := Succ(c.nextReqId)), Message(PING, c.nextReqId, PingText()), now, env)
    else c
  }

  /** heartbeat_cb. */
  function Tick(c: Core, now: nat, env: Env): Core {
    if c.link.closed then c
    else if Elapsed(now, c.link.lastRx) >= SESSION_IDLE_MS then c.(link := CloseLink(c.link))
    else
      var c1 := TickPing(c, now, env);
      var c2 := CheckDownload(CheckUpload(c1, now, env), now, env);
      c2.(proc := CheckProc(c2.proc, now), link := c2.link.(tickAt := now))
  }

  // ---- In place ----

  method ReleaseRef(s: Session, env: Env)
    modifies s`net, s`upload, s`download, s`fs, s`proc
    ensures s.State() == Release(old(s.State()), env)
  {
    hide Abort;
    s.net := s.net.(closeRefs := s.net.closeRefs - 1);
    if s.net.closeRefs > 0 {
      return;
    }
    TransferAbortUpload(s, env);
    TransferAbortDownload(s, env);
    if s.proc.active {
      s.proc := TryKill(s.proc, Requested);
    } else {
      s.proc := Reset(s.proc);
    }
    s.net := s.net.(freed := s.net.freed + 1);
  }

  method HeartbeatCb(s: Session, now: nat, env: Env)
    modifies s`net, s`upload, s`download, s`fs, s`tally, s`proc, s`nextReqId
    ensures s.State() == Tick(old(s.State()), now, env)
  {
    hide Send, CloseLink, CheckUpload, CheckDownload, CheckProc, PingText, Elapsed;
    if s.net.closed {
      return;
    }
    if Elapsed(now, s.net.lastRx) >= SESSION_IDLE_MS {
      CloseSession(s);
      return;
    }
    if Elapsed(now, s.net.lastTx) >= HEARTBEAT_IDLE_MS {
      var id := s.nextReqId;
      s.nextReqId := Succ(s.nextReqId);
      var _ := SendFrame(s, Message(PING, id, PingText()), now, env);
    }
    CheckTimeouts(s, now, env);
    CheckProcTimeouts(s, now);
    s.net := s.net.(tickAt := now);
  }

  // ---- The machine ----

  datatype Event =
    | ReadBytes(chunk: bytes, oracle: Oracle)
    | ReadEnd
    | HeartbeatTick(env: Env)
    | WriteCompleted
    | TimerHandleClosed(env: Env)
    | TcpHandleClosed(env: Env)
    | ChildExited(code: int, env: Env)
    | ChildOutput(pipe: Pipe, data: bytes, env: Env)
    | ChildEof(pipe: Pipe)
    | ProcessHandleClosed(env: Env)
    | PipeHandleClosed(pipe: Pipe, env: Env)
    | DetachedPipeClosed(pipe: Pipe)

  /** The callbacks that give a reference back. */
  predicate IsHandleClosed(e: Event) {
    e.TimerHandleClosed? || e.TcpHandleClosed? || e.ProcessHandleClosed? || e.PipeHandleClosed?
  }

  /** The receive buffer, the session, and history: the time of the last event, and how many bytes
      were taken from the socket. */
  datatype World = World(rx: bytes, core: Core, clock: nat, taken: nat)

  function PipeHandle(p: Proc, which: Pipe): Handle {
    if which == Out then p.stdoutPipe else p.stderrPipe
  }

  predicate PipeAtEof(p: Proc, which: Pipe) {
    if which == Out then p.stdoutClosed else p.stderrClosed
  }

  /** What libuv may deliver: reads of at most one buffer and only on an open socket, write callbacks
      before the socket's close callback, one exit per child, nothing on a pipe after its end, close
      callbacks only for closing handles, and the silent end of a detached pipe. */
  predicate Enabled(w: World, e: Event) {
    var c := w.core;
    match e
    case ReadBytes(chunk, _) => c.link.tcp == Open && 1 <= |chunk| <= READ_CHUNK
    case ReadEnd => c.link.tcp == Open
    case HeartbeatTick(_) => c.link.timer == Open
    case WriteCompleted => c.link.inflight != []
    case TimerHandleClosed(_) => c.link.timer == Closing
    case TcpHandleClosed(_) => c.link.tcp == Closing && c.link.inflight == []
    case ChildExited(_, _) => c.proc.process == Open
    case ChildOutput(which, _, _) => PipeHandle(c.proc, which) == Open && !PipeAtEof(c.proc, which)
    case ChildEof(which) => PipeHandle(c.proc, which) == Open && !PipeAtEof(c.proc, which)
    case ProcessHandleClosed(_) => c.proc.process == Closing
    case PipeHandleClosed(which, _) => PipeHandle(c.proc, which) == Closing
    case DetachedPipeClosed(which) => PipeHandle(c.proc, which) == Detached
  }

  function WithPipeClosed(p: Proc, which: Pipe): Proc {
    if which == Out then p.(stdoutPipe := Closed) else p.(stderrPipe := Closed)
  }

  /** The core after a callback at time now; reads are handled by Step. */
  function Callback(c: Core, now: nat, e: Event): Core {
    match e
    case ReadBytes(_, _) => c
    case ReadEnd => c.(link := CloseLink(c.link))
    case HeartbeatTick(env) => Tick(c, now, env)
    case WriteCompleted => if c.link.inflight == [] then c else c.(link := WriteDone(c.link))
    case TimerHandleClosed(env) => Release(c.(link := c.link.(timer := Closed)), env)
    case TcpHandleClosed(env) => Release(c.(link := c.link.(tcp := Closed)), env)
    case ChildExited(code, env) => ProcExit(c, code, now, env)
    case ChildOutput(which, data, env) => PipeData(c, which, data, now, env)
    case ChildEof(which) => PipeEof(c, which)
    case ProcessHandleClosed(env) => Release(c.(proc := c.proc.(process := Closed)), env)
    case PipeHandleClosed(which, env) =>
      Release(c.(proc := WithPipeClosed(c.proc, which)), env)
    case DetachedPipeClosed(which) => c.(proc := WithPipeClosed(c.proc, which))
  }

  /** Every callback but the read, in place. */
  method RunCallback(s: Session, now: nat, e: Event)
    requires !e.ReadBytes? && (e.WriteCompleted? ==> s.net.inflight != [])
    modifies s`net, s`upload, s`download, s`fs, s`tally, s`proc, s`nextReqId
    ensures s.State() == Callback(old(s.State()), now, e)
  {
    hide CloseLink, Tick, Release, ProcExit, PipeData, PipeEof, WriteDone;
    match e {
      case ReadEnd => CloseSession(s);
      case HeartbeatTick(env) => HeartbeatCb(s, now, env);
      case WriteCompleted => OnWriteDone(s);
      case TimerHandleClosed(env) =>
        s.net := s.net.(timer := Closed);
        ReleaseRef(s, env);
      case TcpHandleClosed(env) =>
        s.net := s.net.(tcp := Closed);
        ReleaseRef(s, env);
      case ChildExited(code, env) => OnProcExit(s, code, now, env);
      case ChildOutput(which, data, env) => OnPipeData(s, which, data, now, env);
      case ChildEof(which) => OnPipeEof(s, which);
      case ProcessHandleClosed(env) =>
        s.proc := s.proc.(process := Closed);
        ReleaseRef(s, env);
      case PipeHandleClosed(which, env) =>
        s.proc := WithPipeClosed(s.proc, which);
        ReleaseRef(s, env);
      case DetachedPipeClosed(which) =>
        s.proc := WithPipeClosed(s.proc, which);
    }
  }

  function Step(w: World, now: nat, e: Event): World {
    if e.ReadBytes? then
      var (rx, c) := Read(w.rx, w.core, e.chunk, now, e.oracle);
      World(rx, c, now, if |w.rx| + |e.chunk| > RX_CAP then w.taken else w.taken + |e.chunk|)
    else
      World(w.rx, Callback(w.core, now, e), now, w.taken)
  }

  function Start(now: nat, disk: map<bytes, bytes>): World {
    World([], Accepted(now, disk), now, 0)
  }
}
