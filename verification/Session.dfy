/** src/session.h and src/session.c: the per-connection record, the bounded write queue and closing.

    libuv is a small environment: which buffers it accepts, what file calls answer and what a child
    does are read from an Env; the state of each handle is part of the model. Functions on values say
    what a step does; methods on the class do it in place. */
module SessionState {
  import opened Bytes
  import opened Frame
  import opened Stream

  const MAX_WRITE_QUEUE: nat := 262144
  const SESSION_IDLE_MS: nat := 15000
  const HEARTBEAT_IDLE_MS: nat := 5000
  const TRANSFER_IDLE_MS: nat := 20000
  const REPLY_CAP: nat := 256
  const ERROR_CAP: nat := 512

  // ---- The environment ----

  /** What Lua code may do to the session while it handles one OP frame. */
  datatype LuaAction =
    | Reply(kind: byte, reqId: u32, text: bytes)
    | ReplyError(reqId: u32, code: bytes, text: bytes)
    | SpawnTool(path: bytes, argv: seq<bytes>, timeoutMs: nat, idleTimeoutMs: nat)

  /** How far proc_spawn_common gets: to a running child, or to the first call that fails, with the
      text of its error. */
  datatype Launch =
    | ChildStarted
    | OutPipeFailed(error: bytes)
    | ErrPipeFailed(error: bytes)
    | SpawnRefused(error: bytes)

  /** The outcomes of the calls made while one frame or one callback is handled. A call that can come
      more than once has one answer for each time: writes by the number of frames sent before, reads
      by file offset, unlinks by path, spawns by the number of spawns tried before. */
  datatype Env = Env(
    writes: nat -> bool, openOk: bool, fd: nat, statOk: bool, readAt: nat -> int, written: int,
    closeOk: bool, unlinkOk: bytes -> bool, renameOk: bool, launch: nat -> Launch, killOk: bool,
    strerror: bytes, lua: seq<LuaAction>, luaOk: bool)

  /** Files by path, and the descriptors opened by this session; stray counts calls on a descriptor
      that is not open. */
  datatype Fs = Fs(files: map<bytes, bytes>, open: map<int, bytes>, stray: nat)

  // ---- The records ----

  /** A handle inside the session, as libuv sees it. A detached one is closing without a callback, so
      its end gives no reference back. */
  datatype Handle = Unused | Open | Closing | Detached | Closed

  /** libuv holds the handle, and a reference of the session stands for it. */
  predicate Counted(h: Handle) {
    h == Open || h == Closing
  }

  /** libuv holds the handle. */
  predicate Live(h: Handle) {
    Counted(h) || h == Detached
  }

  /** The connection: closing state, libuv's handles on it, and the outgoing queue. The time of the
      last heartbeat tick (or of the accept) is history only. */
  datatype Link = Link(
    closed: bool, timerStarted: bool, closeRefs: int, timer: Handle, tcp: Handle, freed: nat,
    pending: nat, inflight: seq<bytes>, lastRx: nat, lastTx: nat, framesTx: nat, bytesTx: nat,
    tickAt: nat)

  datatype Mode = NoMode | Upload | Download

  /** struct transfer_state. */
  datatype Transfer = Transfer(
    active: bool, overwrite: bool, mode: Mode, reqId: u32, file: int, total: nat, offset: nat,
    progress: nat, chunkSize: nat, path: Option<bytes>, tmp: Option<bytes>)

  datatype KillReason = NoKill | Requested | Timeout | Idle

  datatype Pipe = Out | Err

  /** What was asked for when a child was started, and when. */
  datatype Child = Child(
    id: u32, path: bytes, args: seq<bytes>, timeout: nat, idleTimeout: nat, started: nat)

  /** History of the child slot: what happened, in order. */
  datatype ProcEvent =
    | Spawned(child: Child)
    | Output(id: u32, pipe: Pipe, at: nat)
    | Ended(pipe: Pipe)
    | KillTried(reason: KillReason)
    | ExitSent(id: u32, reason: KillReason)
    | Finalized

  /** struct proc_state, with its libuv handles and the process_spawns counter of the session. The log
      and the overlap mark (a spawn attempt while libuv still holds a handle of an earlier one) are
      history only: no branch reads them. */
  datatype Proc = Proc(
    active: bool, stdoutClosed: bool, stderrClosed: bool, procId: u32, started: nat, lastIo: nat,
    timeout: nat, idleTimeout: nat, kill: KillReason, file: Option<bytes>, args: seq<bytes>,
    process: Handle, stdoutPipe: Handle, stderrPipe: Handle, spawns: nat,
    log: seq<ProcEvent>, overlapped: bool)

  datatype Tally = Tally(starts: nat, completes: nat, aborts: nat)

  datatype Core = Core(
    link: Link, upload: Transfer, download: Transfer, fs: Fs, tally: Tally, proc: Proc,
    framesRx: nat, bytesRx: nat, nextReqId: u32, nextProcId: u32)

  const IDLE: Transfer := Transfer(false, false, NoMode, 0, -1, 0, 0, 0, READ_CHUNK, None, None)

  const NO_PROC: Proc := Proc(false, false, false, 0, 0, 0, 0, 0, NoKill, None, [],
                              Unused, Unused, Unused, 0, [], false)

  // ---- Error replies ----

  datatype Failure =
    | TransferBusy | MissingPathOrSize | MissingPath | ReplyOverflow | NoTransfer | WrongMode
    | ChunkTooLong | WriteFailed | SizeMismatch | FileError | NotFound | DownloadBusy | ReadFailed
    | Stalled | BadType | LuaFailed | LuaError(code: bytes, text: bytes)
    | ProcBusy | SpawnFailed(error: bytes) | MissingProcId | NoProc | KillFailed

  function ErrorParts(f: Failure, strerror: bytes): (bytes, bytes) {
    match f
    case TransferBusy => (Ascii("io_error"), Ascii("transfer already active"))
    case MissingPathOrSize => (Ascii("bad_payload"), Ascii("missing path or size"))
    case MissingPath => (Ascii("bad_payload"), Ascii("missing path"))
    case ReplyOverflow => (Ascii("internal"), Ascii("reply overflow"))
    case NoTransfer => (Ascii("bad_payload"), Ascii("no active transfer"))
    case WrongMode => (Ascii("bad_payload"), Ascii("wrong transfer mode"))
    case ChunkTooLong => (Ascii("bad_payload"), Ascii("chunk exceeds declared size"))
    case WriteFailed => (Ascii("io_error"), Ascii("write failed"))
    case SizeMismatch => (Ascii("bad_payload"), Ascii("size mismatch"))
    case FileError => (Ascii("io_error"), strerror)
    case NotFound => (Ascii("not_found"), strerror)
    case DownloadBusy => (Ascii("io_error"), Ascii("download already active"))
    case ReadFailed => (Ascii("io_error"), Ascii("read failed"))
    case Stalled => (Ascii("timeout"), Ascii("transfer stalled"))
    case BadType => (Ascii("bad_type"), Ascii("unsupported frame type"))
    case LuaFailed => (Ascii("internal"), Ascii("lua dispatch failed"))
    case LuaError(code, text) => (code, text)
    case ProcBusy => (Ascii("spawn_failed"), Ascii("process already active"))
    case SpawnFailed(error) => (Ascii("spawn_failed"), error)
    case MissingProcId => (Ascii("bad_payload"), Ascii("missing proc_id"))
    case NoProc => (Ascii("not_found"), Ascii("process not active"))
    case KillFailed => (Ascii("io_error"), Ascii("kill failed"))
  }

  function ErrorText(f: Failure, strerror: bytes): bytes {
    var p := ErrorParts(f, strerror);
    Ascii("code=") + p.0 + Ascii("\nmessage=") + p.1
  }

  // ---- Closing and sending, on values ----

  function CloseLink(l: Link): Link {
    if l.closed then l
    else
      l.(closed := true,
         timer := if l.timerStarted then Closing else l.timer,
         timerStarted := false,
         closeRefs := l.closeRefs + 1,
         tcp := Closing)
  }

  /** session_send_frame: the new link and whether the frame was queued. */
  function Send(l: Link, m: Message, now: nat, env: Env): (Link, bool) {
    if l.closed then (l, false)
    else if l.pending + WireSize(m) > MAX_WRITE_QUEUE then (CloseLink(l), false)
    else if !ValidMessage(m) then (l, false)
    else
      var counted := l.(framesTx := l.framesTx + 1, bytesTx := l.bytesTx + WireSize(m), lastTx := now);
      if env.writes(l.framesTx) then
        (counted.(pending := l.pending + WireSize(m), inflight := l.inflight + [EncodeMessage(m)]), true)
      else (counted, false)
  }

  function SendError(l: Link, reqId: u32, f: Failure, now: nat, env: Env): Link {
    var text := ErrorText(f, env.strerror);
    if |text| >= ERROR_CAP then l else Send(l, Message(ERROR, reqId, text), now, env).0
  }

  /** The core after sending, or after an error reply. */
  function Tell(c: Core, m: Message, now: nat, env: Env): Core {
    c.(link := Send(c.link, m, now, env).0)
  }

  function Fail(c: Core, reqId: u32, f: Failure, now: nat, env: Env): Core {
    c.(link := SendError(c.link, reqId, f, now, env))
  }

  /** on_write_done for the oldest buffer in flight. */
  function WriteDone(l: Link): Link
    requires l.inflight != []
  {
    var n := |l.inflight[0]|;
    l.(pending := if l.pending >= n then l.pending - n else l.pending, inflight := l.inflight[1..])
  }

  // ---- The session in place ----

  class Session {
    const rxBuf: array<byte>
    var rxUsed: nat
    var net: Link
    var upload: Transfer
    var download: Transfer
    var fs: Fs
    var tally: Tally
    var proc: Proc
    var framesRx: nat
    var bytesRx: nat
    var nextReqId: u32
    var nextProcId: u32

    ghost function State(): Core
      reads this
    {
      Core(net, upload, download, fs, tally, proc, framesRx, bytesRx, nextReqId, nextProcId)
    }

    /** on_new_connection with session_init and session_start_timers, when every call succeeds: one
        reference, for the heartbeat timer. */
    constructor (now: nat, disk: map<bytes, bytes>)
      ensures rxBuf.Length == RX_CAP && rxUsed == 0 && fresh(rxBuf)
      ensures State() == Accepted(now, disk)
    {
      rxBuf := new byte[RX_CAP];
      rxUsed := 0;
      net := Link(false, true, 1, Open, Open, 0, 0, [], now, now, 0, 0, now);
      upload, download, proc := IDLE, IDLE, NO_PROC;
      fs, tally := Fs(disk, map[], 0), Tally(0, 0, 0);
      framesRx, bytesRx, nextReqId, nextProcId := 0, 0, 1, 1;
    }
  }

  function Accepted(now: nat, disk: map<bytes, bytes>): Core {
    Core(Link(false, true, 1, Open, Open, 0, 0, [], now, now, 0, 0, now),
         IDLE, IDLE, Fs(disk, map[], 0), Tally(0, 0, 0), NO_PROC, 0, 0, 1, 1)
  }

  method CloseSession(s: Session)
    modifies s`net
    ensures s.net == CloseLink(old(s.net))
  {
    if s.net.closed {
      return;
    }
    s.net := s.net.(closed := true);
    if s.net.timerStarted {
      s.net := s.net.(timer := Closing);
      s.net := s.net.(timerStarted := false);
    }
    s.net := s.net.(closeRefs := s.net.closeRefs + 1);
    s.net := s.net.(tcp := Closing);
  }

  /** The buffer handed to uv_write: the header, then the payload copied behind it. */
  method FillBuffer(m: Message) returns (out: Option<bytes>)
    requires WireSize(m) <= MAX_WRITE_QUEUE
    ensures out == if ValidMessage(m) then Some(EncodeMessage(m)) else None
  {
    var header := Header(m.kind, 0, m.reqId, |m.payload|);
    var buf := new byte[HEADER_SIZE + |m.payload|](i => 0);
    var encoded := EncodeHeader(buf, header);
    if !encoded {
      return None;
    }
    for i := 0 to |m.payload|
      invariant buf[..HEADER_SIZE] == HeaderBytes(header)
      invariant buf[HEADER_SIZE..HEADER_SIZE + i] == m.payload[..i]
    {
      buf[HEADER_SIZE + i] := m.payload[i];
    }
    assert m.payload[..|m.payload|] == m.payload;
    assert buf[HEADER_SIZE..] == buf[HEADER_SIZE..HEADER_SIZE + |m.payload|] == m.payload;
    assert buf[..] == buf[..HEADER_SIZE] + buf[HEADER_SIZE..];
    out := Some(buf[..]);
  }

  method SendFrame(s: Session, m: Message, now: nat, env: Env) returns (ok: bool)
    modifies s`net
    ensures (s.net, ok) == Send(old(s.net), m, now, env)
  {
    hide EncodeMessage;
    if s.net.closed {
      return false;
    }
    var size := HEADER_SIZE + |m.payload|;
    if s.net.pending + size > MAX_WRITE_QUEUE {
      CloseSession(s);
      return false;
    }
    var buf := FillBuffer(m);
    if buf.None? {
      return false;
    }
    var accepted := env.writes(s.net.framesTx);
    s.net := s.net.(framesTx := s.net.framesTx + 1, bytesTx := s.net.bytesTx + size);
    s.net := s.net.(lastTx := now);
    s.net := s.net.(pending := s.net.pending + size);
    if !accepted {
      s.net := s.net.(pending := s.net.pending - size);
      return false;
    }
    s.net := s.net.(inflight := s.net.inflight + [buf.value]);
    return true;
  }

  method SendErrorFrame(s: Session, reqId: u32, f: Failure, now: nat, env: Env)
    modifies s`net
    ensures s.net == SendError(old(s.net), reqId, f, now, env)
  {
    hide ErrorText, Send;
    var text := ErrorText(f, env.strerror);
    if |text| >= ERROR_CAP {
      return;
    }
    var _ := SendFrame(s, Message(ERROR, reqId, text), now, env);
  }

  method OnWriteDone(s: Session)
    requires s.net.inflight != []
    modifies s`net
    ensures s.net == WriteDone(old(s.net))
  {
    var n := |s.net.inflight[0]|;
    if s.net.pending >= n {
      s.net := s.net.(pending := s.net.pending - n);
    }
    s.net := s.net.(inflight := s.net.inflight[1..]);
  }
}
