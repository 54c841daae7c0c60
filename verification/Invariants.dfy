/** What every step of a session keeps. */
module Invariants {
  import opened Bytes
  import opened Frame
  import opened Stream
  import opened SessionState
  import opened Transfers
  import opened Procs
  import opened Protocol
  import opened Server
  import opened Lifetime
  import Kv
  import Argv

  const TWO_63: int := 0x8000_0000_0000_0000

  function One(b: bool): nat {
    if b then 1 else 0
  }

  // ---- The child's history ----

  /** A child as its history tells it: what was asked for, the time of its last output, the last kill
      tried, whether it has exited, and which pipes have ended. */
  datatype Phase =
    | NoChild
    | Running(child: Child, lastIo: nat, kill: KillReason, exited: bool, outEnded: bool, errEnded: bool)

  /** The only histories allowed: a run starts with a spawn; all its output carries its id and comes
      before the end of the pipe; each pipe ends once; kills come before the exit; one exit, whose
      reason is the last kill tried; one finalisation, after the exit and both ends, which ends the
      run. */
  function Advance(phase: Option<Phase>, e: ProcEvent): Option<Phase> {
    match phase
    case None => None
    case Some(NoChild) =>
      if e.Spawned? then Some(Running(e.child, e.child.started, NoKill, false, false, false)) else None
    case Some(run) =>
      match e
      case Spawned(_) => None
      case Output(id, pipe, at) =>
        if id == run.child.id && !PipeEnded(run, pipe) then Some(run.(lastIo := at)) else None
      case Ended(pipe) =>
        if PipeEnded(run, pipe) then None
        else Some(if pipe == Out then run.(outEnded := true) else run.(errEnded := true))
      case KillTried(r) => if !run.exited && r != NoKill then Some(run.(kill := r)) else None
      case ExitSent(id, r) =>
        if id == run.child.id && !run.exited && r == run.kill then Some(run.(exited := true)) else None
      case Finalized => if run.exited && run.outEnded && run.errEnded then Some(NoChild) else None
  }

  predicate PipeEnded(run: Phase, pipe: Pipe)
    requires run.Running?
  {
    if pipe == Out then run.outEnded else run.errEnded
  }

  function Trace(log: seq<ProcEvent>): Option<Phase> {
    if log == [] then Some(NoChild) else Advance(Trace(log[..|log| - 1]), log[|log| - 1])
  }

  lemma TraceSnoc(log: seq<ProcEvent>, e: ProcEvent)
    ensures Trace(log + [e]) == Advance(Trace(log), e)
  {
    assert (log + [e])[..|log|] == log;
  }

  function PhaseOf(p: Proc): Phase {
    if p.stdoutPipe == Open then
      var path := if p.file.Some? then p.file.value else [];
      Running(Child(p.procId, path, p.args, p.timeout, p.idleTimeout, p.started), p.lastIo, p.kill, !p.active,
              p.stdoutClosed, p.stderrClosed)
    else NoChild
  }

  /** The child slot, as long as no spawn overlapped a live handle. */
  predicate ProcOk(p: Proc, now: nat) {
    && p.started <= now && p.lastIo <= now && p.process != Detached
    && (!p.overlapped ==>
          && (p.active <==> p.process == Open)
          && (p.stdoutPipe == Open <==> p.stderrPipe == Open)
          && (p.active ==> p.stdoutPipe == Open)
          && (p.stdoutPipe == Open ==> p.file.Some?)
          && (p.stdoutClosed || p.stderrClosed ==> p.stdoutPipe == Open)
          && (p.stdoutPipe == Open && !p.active ==> !(p.stdoutClosed && p.stderrClosed))
          && Trace(p.log) == Some(PhaseOf(p)))
  }

  // ---- The connection ----

  /** The child's handles with a reference of the session. */
  function Children(p: Proc): nat {
    One(Counted(p.process)) + One(Counted(p.stdoutPipe)) + One(Counted(p.stderrPipe))
  }

  /** The pipes that a failed spawn left closing; no reference stands for them. */
  function DetachedPipes(p: Proc): nat {
    One(p.stdoutPipe == Detached) + One(p.stderrPipe == Detached)
  }

  /** The queue account, the two phases of the connection, and the reference count: one for each
      counted handle. */
  predicate LinkOk(l: Link, p: Proc, now: nat) {
    && l.lastRx <= now && l.lastTx <= now && l.tickAt <= now
    && (!l.closed ==> l.tickAt < l.lastRx + SESSION_IDLE_MS)
    && (!l.closed ==> l.tickAt < l.lastTx + HEARTBEAT_IDLE_MS)
    && l.pending == Sum(l.inflight) <= MAX_WRITE_QUEUE
    && (forall i :: 0 <= i < |l.inflight| ==> IsFrame(l.inflight[i]))
    && (!l.closed ==> l.timerStarted && l.timer == Open && l.tcp == Open)
    && (l.closed ==> !l.timerStarted && (l.timer == Closing || l.timer == Closed)
                     && (l.tcp == Closing || l.tcp == Closed))
    && (l.tcp == Closed ==> l.inflight == [])
    && (!p.overlapped ==>
          && l.closeRefs == One(Counted(l.timer)) + One(l.tcp == Closing) + Children(p)
          && l.freed == One(l.closed && l.closeRefs == 0))
  }

  // ---- The transfers ----

  /** Between events the upload slot is idle and owns nothing, or it is active and owns exactly one
      descriptor, on its temporary file; that file has as many bytes as were accepted. */
  predicate UploadOk(u: Transfer, fs: Fs, now: nat) {
    && fs.stray == 0
    && if !u.active then u == IDLE && fs.open == map[]
       else
         && u.mode == Upload && u.file >= 0 && u.path.Some? && u.tmp == Some(Part(u.path.value))
         && fs.open == map[u.file := u.tmp.value]
         && u.tmp.value in fs.files
         && |BeginReply(u.reqId, u.path.value, u.total)| < REPLY_CAP
         && u.progress <= now && u.total < TWO_64
         && (u.total < TWO_63 ==> |fs.files[u.tmp.value]| == u.offset <= u.total)
  }

  predicate TallyOk(t: Tally, u: Transfer) {
    t.completes + t.aborts + One(u.active) <= t.starts
  }

  predicate CoreOk(c: Core, now: nat) {
    && LinkOk(c.link, c.proc, now)
    && ProcOk(c.proc, now)
    && UploadOk(c.upload, c.fs, now)
    && c.download == IDLE
    && TallyOk(c.tally, c.upload)
  }

  lemma Later(c: Core, t: nat, now: nat)
    requires CoreOk(c, t) && t <= now
    ensures CoreOk(c, now)
  {
  }

  // ---- Sending keeps the connection in order ----

  lemma CloseKeeps(l: Link, p: Proc, now: nat)
    requires LinkOk(l, p, now)
    ensures LinkOk(CloseLink(l), p, now)
  {
  }

  lemma SendKeeps(l: Link, p: Proc, m: Message, now: nat, env: Env)
    requires LinkOk(l, p, now)
    ensures LinkOk(Send(l, m, now, env).0, p, now)
    ensures l.tcp != Closed ==> Send(l, m, now, env).0.tcp != Closed
  {
    hide IsFrame, EncodeMessage;
    if !l.closed && ValidMessage(m) {
      EncodedIsFrame(m);
      var buf: seq<bytes> := [EncodeMessage(m)];
      SumAppend(l.inflight, buf);
      assert Sum(buf) == |buf[0]| + Sum(buf[1..]);
    }
  }

  /** The time of the last read stays, and that of the last send is now if a frame was handed over. */
  predicate Stamped(l: Link, r: Link, now: nat) {
    && r.lastRx == l.lastRx && r.framesTx >= l.framesTx
    && r.lastTx == if r.framesTx == l.framesTx then l.lastTx else now
  }

  lemma SendsLeave(l: Link, now: nat, env: Env)
    ensures forall m :: Stamped(l, Send(l, m, now, env).0, now)
    ensures forall reqId, f :: Stamped(l, SendError(l, reqId, f, now, env), now)
  {
    hide ErrorText;
  }

  /** A send never frees. */
  lemma SendFreed(l: Link, m: Message, now: nat, env: Env)
    ensures Send(l, m, now, env).0.freed == l.freed
  {
  }

  /** Any send at all, from one link. */
  lemma SendsKeep(l: Link, p: Proc, now: nat, env: Env)
    requires LinkOk(l, p, now)
    ensures forall m :: LinkOk(Send(l, m, now, env).0, p, now)
    ensures forall reqId, f :: LinkOk(SendError(l, reqId, f, now, env), p, now)
    ensures l.tcp != Closed ==> forall m :: Send(l, m, now, env).0.tcp != Closed
    ensures l.tcp != Closed ==> forall reqId, f :: SendError(l, reqId, f, now, env).tcp != Closed
  {
    hide Send, ErrorText, LinkOk;
    forall m
      ensures LinkOk(Send(l, m, now, env).0, p, now)
      ensures l.tcp != Closed ==> Send(l, m, now, env).0.tcp != Closed
    {
      SendKeeps(l, p, m, now, env);
    }
  }

  // ---- Each upload handler ----

  /** The PUT_END reply is shorter than the PUT_BEGIN reply for the same path and size. */
  lemma EndReplyShorter(reqId: u32, path: bytes, size: nat)
    ensures |EndReply(path, size)| < |BeginReply(reqId, path, size)|
  {
  }

  lemma AbortOwned(u: Transfer, fs: Fs, now: nat, env: Env)
    requires UploadOk(u, fs, now)
    ensures UploadOk(IDLE, Abort(fs, u, env), now)
    ensures u.active && env.unlinkOk(u.tmp.value) ==> u.tmp.value !in Abort(fs, u, env).files
    ensures forall q :: q in fs.files && u.tmp != Some(q) ==>
              q in Abort(fs, u, env).files && Abort(fs, u, env).files[q] == fs.files[q]
  {
    hide BeginReply, Part;
    if u.active {
      assert fs.open - {u.file} == map[];
    }
  }

  lemma OpenedUpload(c: Core, fs: Fs, fd: int, t: Transfer, now: nat, env: Env)
    requires UploadOk(c.upload, c.fs, now) && !c.upload.active
    requires t.tmp.Some? && OpenForWrite(c.fs, t.tmp.value, env) == (fs, fd) && fd >= 0
    ensures fs.stray == 0 && fs.open == map[fd := t.tmp.value]
    ensures t.tmp.value in fs.files && fs.files[t.tmp.value] == []
  {
  }

  lemma PutBeginKeeps(c: Core, reqId: u32, payload: bytes, now: nat, env: Env)
    requires CoreOk(c, now)
    ensures CoreOk(PutBegin(c, reqId, payload, now, env), now)
    ensures c.link.tcp != Closed ==> PutBegin(c, reqId, payload, now, env).link.tcp != Closed
  {
    hide Send, SendError, LinkOk, ProcOk, BeginReply, Part, Kv.Copy, Kv.CopyU64Or, ParseU64, PATH, SIZE,
         OVERWRITE, CHUNK_SIZE, ONE, OpenForWrite;
    SendsKeep(c.link, c.proc, now, env);
    var path, size := Kv.Copy(payload, PATH(), PATH_CAP), Kv.CopyU64(payload, SIZE());
    if !c.upload.active && path.Some? && size.Some? {
      SizeBound(payload);
      var tmp := Part(path.value);
      NoOpen(c.fs, tmp, env);
      var (fs, fd) := OpenForWrite(c.fs, tmp, env);
      if fd < 0 {
        UnlinkIdle(c.fs, tmp, now, env);
      } else {
        OpenedUpload(c, fs, fd, c.upload.(tmp := Some(tmp)), now, env);
        assert fs.open - {fd} == map[];
      }
    }
  }

  lemma SizeBound(payload: bytes)
    ensures var size := Kv.CopyU64(payload, SIZE()); size.Some? ==> size.value < TWO_64
  {
  }

  lemma UnlinkIdle(fs: Fs, tmp: bytes, now: nat, env: Env)
    requires UploadOk(IDLE, fs, now)
    ensures UploadOk(IDLE, Unlink(fs, tmp, env), now)
  {
  }

  lemma WholeWrite(u: Transfer, fs: Fs, data: bytes, now: nat, env: Env)
    requires UploadOk(u, fs, now) && u.active
    ensures var (fs1, n) := WriteAt(fs, u.file, u.offset, data, env);
            && fs1.stray == 0 && fs1.open == fs.open && u.tmp.value in fs1.files
            && (forall q :: q != u.tmp.value ==> (q in fs1.files <==> q in fs.files))
            && (forall q :: q != u.tmp.value && q in fs.files ==> fs1.files[q] == fs.files[q])
            && (n == |data| && u.total < TWO_63 ==> fs1.files[u.tmp.value] == fs.files[u.tmp.value] + data)
  {
    hide BeginReply, Part;
    var path := u.tmp.value;
    assert fs.open[u.file] == path;
    if env.written >= |data| {
      assert data[..|data|] == data;
    }
  }

  lemma PutChunkKeeps(c: Core, reqId: u32, data: bytes, now: nat, env: Env)
    requires CoreOk(c, now) && |data| <= MAX_FRAME_PAYLOAD
    ensures CoreOk(PutChunk(c, reqId, data, now, env), now)
    ensures c.link.tcp != Closed ==> PutChunk(c, reqId, data, now, env).link.tcp != Closed
  {
    hide Send, SendError, LinkOk, ProcOk, BeginReply, Part, WriteAt, Abort;
    SendsKeep(c.link, c.proc, now, env);
    var u := c.upload;
    if u.active {
      AbortOwned(u, c.fs, now, env);
      WholeWrite(u, c.fs, data, now, env);
      var (fs, n) := WriteAt(c.fs, u.file, u.offset, data, env);
      if n != |data| {
        PartialWrite(u, c.fs, fs, now, env);
      }
    }
  }

  /** After a short write the slot is given up whatever the temporary file holds. */
  lemma PartialWrite(u: Transfer, fs: Fs, fs1: Fs, now: nat, env: Env)
    requires UploadOk(u, fs, now) && u.active && fs1.stray == 0 && fs1.open == fs.open
    ensures UploadOk(IDLE, Abort(fs1, u, env), now)
  {
    hide BeginReply, Part;
    assert fs.open - {u.file} == map[];
  }

  lemma PutEndKeeps(c: Core, reqId: u32, now: nat, env: Env)
    requires CoreOk(c, now)
    ensures CoreOk(PutEnd(c, reqId, now, env), now)
    ensures c.link.tcp != Closed ==> PutEnd(c, reqId, now, env).link.tcp != Closed
  {
    hide Send, SendError, LinkOk, ProcOk, BeginReply, EndReply, Part, Abort;
    SendsKeep(c.link, c.proc, now, env);
    var u := c.upload;
    if u.active {
      AbortOwned(u, c.fs, now, env);
      var closed := CloseFd(c.fs, u.file);
      assert c.fs.open - {u.file} == map[];
      var done := u.(file := -1);
      AbortClosed(done, closed, now, env);
      var (fs, renamed) := FinalizeRename(closed, done, env);
      AbortClosed(done, fs, now, env);
    }
  }

  lemma AbortClosed(u: Transfer, fs: Fs, now: nat, env: Env)
    requires fs.stray == 0 && fs.open == map[] && u.file == -1
    ensures UploadOk(IDLE, Abort(fs, u, env), now)
  {
  }

  // ---- Downloads ----

  /** Whatever happens in the chunk loop, the slot ends idle, its descriptor closed, the files and
      the upload untouched, and the transfer counted once as complete or aborted. */
  lemma {:induction false} GetChunksKeeps(c: Core, now: nat, env: Env)
    requires LinkOk(c.link, c.proc, now) && c.download.tmp.None? && c.download.file >= 0
    ensures var r := GetChunks(c, now, env);
            && LinkOk(r.link, r.proc, now)
            && r.fs == CloseFd(c.fs, c.download.file) && r.download == IDLE
            && r == c.(link := r.link, fs := r.fs, download := IDLE, tally := r.tally)
            && (r.tally == Completed(c.tally) || r.tally == Aborted(c.tally))
            && (c.link.tcp != Closed ==> r.link.tcp != Closed)
    decreases c.download.total - c.download.offset
  {
    hide Send, SendError, LinkOk, ReadAt, CloseFd;
    SendsKeep(c.link, c.proc, now, env);
    var d := c.download;
    if d.offset < d.total {
      var data := ReadAt(c.fs, d.file, d.offset, Min(d.chunkSize, d.total - d.offset), env);
      if data.Some? {
        var (l, sent) := Send(c.link, Message(GET_CHUNK, d.reqId, data.value), now, env);
        if sent {
          GetChunksKeeps(c.(link := l, download := d.(offset := d.offset + |data.value|, progress := now)),
                         now, env);
        }
      }
    }
  }

  lemma GetOpenedKeeps(c: Core, reqId: u32, path: bytes, now: nat, env: Env)
    requires LinkOk(c.link, c.proc, now) && c.download.tmp.None? && c.download.file >= 0
    ensures var r := GetOpened(c, reqId, path, now, env);
            && LinkOk(r.link, r.proc, now)
            && r.fs == CloseFd(c.fs, c.download.file) && r.download == IDLE
            && r == c.(link := r.link, fs := r.fs, download := IDLE, tally := r.tally)
            && r.tally.starts >= c.tally.starts
            && (c.link.tcp != Closed ==> r.link.tcp != Closed)
            && r.tally.completes + r.tally.aborts - r.tally.starts
               <= c.tally.completes + c.tally.aborts - c.tally.starts
  {
    hide Send, SendError, LinkOk, CloseFd, BeginReply, GetChunks;
    SendsKeep(c.link, c.proc, now, env);
    if env.statOk {
      var total := FileSize(c.fs, path);
      var d := c.download.(active := true, mode := Download, reqId := reqId, total := total,
                           offset := 0, progress := now);
      var reply := BeginReply(reqId, path, total);
      var (l, sent) := Send(c.link, Message(ACK, reqId, reply), now, env);
      GetChunksKeeps(c.(link := l, download := d, tally := Started(c.tally)), now, env);
    }
  }

  lemma GetBeginKeeps(c: Core, reqId: u32, payload: bytes, now: nat, env: Env)
    requires CoreOk(c, now)
    ensures CoreOk(GetBegin(c, reqId, payload, now, env), now)
    ensures c.link.tcp != Closed ==> GetBegin(c, reqId, payload, now, env).link.tcp != Closed
    ensures GetBegin(c, reqId, payload, now, env).fs == c.fs
    ensures GetBegin(c, reqId, payload, now, env).upload == c.upload
  {
    hide Send, SendError, LinkOk, ProcOk, UploadOk, BeginReply, Part, Kv.Copy, PATH, CHUNK_SIZE, GetOpened,
         ChunkSize;
    SendsKeep(c.link, c.proc, now, env);
    var path := Kv.Copy(payload, PATH(), PATH_CAP);
    if path.Some? {
      NoOpen(c.fs, path.value, env);
      var (fs, fd) := OpenForRead(c.fs, path.value, env);
      if fd >= 0 {
        var d := IDLE.(path := path, chunkSize := ChunkSize(payload), file := fd);
        GetOpenedKeeps(c.(fs := fs, download := d), reqId, path.value, now, env);
        assert fs.open - {fd} == c.fs.open;
        assert CloseFd(fs, fd) == c.fs;
      }
    }
  }

  lemma CheckUploadKeeps(c: Core, now: nat, env: Env)
    requires CoreOk(c, now)
    ensures CoreOk(CheckUpload(c, now, env), now)
    ensures CheckDownload(CheckUpload(c, now, env), now, env) == CheckUpload(c, now, env)
  {
    hide Send, SendError, LinkOk, ProcOk, BeginReply, Part, Abort;
    SendsKeep(c.link, c.proc, now, env);
    if c.upload.active {
      AbortOwned(c.upload, c.fs, now, env);
    }
  }

  // ---- The child ----

  /** Sends do not depend on the child beyond its live handles and its overlap mark. */
  lemma LinkSameChildren(l: Link, p: Proc, q: Proc, now: nat)
    requires LinkOk(l, p, now) && q.overlapped == p.overlapped
    requires p.overlapped || Children(q) == Children(p)
    ensures LinkOk(l, q, now)
  {
  }

  lemma LaunchedOk(l: Link, p: Proc, id: u32, path: bytes, args: seq<bytes>, timeout: nat,
                   idleTimeout: nat, now: nat)
    requires ProcOk(p, now) && LinkOk(l, p, now) && l.tcp != Closed && !p.active
    ensures var q := Launched(Prepared(p, id, path, args, timeout, idleTimeout, now),
                              Child(id, path, args, timeout, idleTimeout, now));
            ProcOk(q, now) && LinkOk(l.(closeRefs := l.closeRefs + 3), q, now)
  {
    TraceSnoc(p.log, Spawned(Child(id, path, args, timeout, idleTimeout, now)));
  }

  /** A failed spawn adds no reference, and the pipes it leaves closing are not counted. */
  lemma RefusedOk(l: Link, p: Proc, launch: Launch, now: nat)
    requires ProcOk(p, now) && LinkOk(l, p, now) && !p.active && !launch.ChildStarted?
    ensures var q := LeavePipes(Attempt(p), launch); ProcOk(q, now) && LinkOk(l, q, now)
  {
  }

  lemma SpawnKeeps(c: Core, reqId: u32, path: bytes, args: seq<bytes>, timeout: nat, idleTimeout: nat,
                   ack: bool, now: nat, env: Env)
    requires CoreOk(c, now) && c.link.tcp != Closed
    ensures CoreOk(Spawn(c, reqId, path, args, timeout, idleTimeout, ack, now, env), now)
    ensures Spawn(c, reqId, path, args, timeout, idleTimeout, ack, now, env).link.tcp != Closed
  {
    hide Send, SendError, UploadOk, SpawnReply, ProcOk, LinkOk, HandlesLive, LeavePipes, Attempt, Launched, Prepared;
    SendsKeep(c.link, c.proc, now, env);
    if !c.proc.active {
      var launch := env.launch(c.proc.spawns);
      if !launch.ChildStarted? {
        RefusedOk(c.link, c.proc, launch, now);
        SendsKeep(c.link, LeavePipes(Attempt(c.proc), launch), now, env);
      }
      var q := Launched(Prepared(c.proc, c.nextProcId, path, args, timeout, idleTimeout, now),
                        Child(c.nextProcId, path, args, timeout, idleTimeout, now));
      LaunchedOk(c.link, c.proc, c.nextProcId, path, args, timeout, idleTimeout, now);
      SendsKeep(c.link.(closeRefs := c.link.closeRefs + 3), q, now, env);
    }
  }

  lemma TryKillKeeps(p: Proc, r: KillReason, now: nat)
    requires ProcOk(p, now) && p.active && r != NoKill
    ensures ProcOk(TryKill(p, r), now)
  {
    TraceSnoc(p.log, KillTried(r));
  }

  lemma HandleKillKeeps(c: Core, reqId: u32, payload: bytes, now: nat, env: Env)
    requires CoreOk(c, now)
    ensures CoreOk(HandleKill(c, reqId, payload, now, env), now)
    ensures c.link.tcp != Closed ==> HandleKill(c, reqId, payload, now, env).link.tcp != Closed
  {
    hide Send, SendError, UploadOk, ProcOk, KillReply, ProcIdIn;
    SendsKeep(c.link, c.proc, now, env);
    if c.proc.active {
      var p := TryKill(c.proc, Requested);
      TryKillKeeps(c.proc, Requested, now);
      LinkSameChildren(c.link, c.proc, p, now);
      SendsKeep(c.link, p, now, env);
    }
  }

  lemma CheckProcKeeps(p: Proc, now: nat)
    requires ProcOk(p, now)
    ensures ProcOk(CheckProc(p, now), now)
    ensures Children(CheckProc(p, now)) == Children(p) && CheckProc(p, now).overlapped == p.overlapped
  {
    hide ProcOk;
    if p.active {
      TryKillKeeps(p, Timeout, now);
      TryKillKeeps(p, Idle, now);
    }
  }

  lemma MaybeFinalizeKeeps(p: Proc, now: nat)
    requires p.started <= now && p.lastIo <= now && p.process != Detached
    requires !p.overlapped ==>
               && (p.active <==> p.process == Open) && p.stdoutPipe == Open && p.stderrPipe == Open && p.file.Some?
               && Trace(p.log) == Some(PhaseOf(p))
    ensures ProcOk(MaybeFinalize(p), now)
    ensures Children(MaybeFinalize(p)) == Children(p) || p.overlapped
    ensures MaybeFinalize(p).overlapped == p.overlapped
  {
    TraceSnoc(p.log, Finalized);
  }

  lemma ProcExitKeeps(c: Core, code: int, now: nat, env: Env)
    requires CoreOk(c, now) && c.proc.process == Open
    ensures CoreOk(ProcExit(c, code, now, env), now)
  {
    hide Send, SendError, UploadOk, ExitReply, MaybeFinalize;
    SendsKeep(c.link, c.proc, now, env);
    var p := c.proc.(active := false, process := Closing);
    var q := Note(p, ExitSent(p.procId, p.kill));
    TraceSnoc(p.log, ExitSent(p.procId, p.kill));
    MaybeFinalizeKeeps(q, now);
    var r := ProcExit(c, code, now, env);
    LinkSameChildren(r.link, c.proc, r.proc, now);
  }

  lemma PipeDataKeeps(c: Core, which: Pipe, data: bytes, now: nat, env: Env)
    requires CoreOk(c, now) && PipeHandle(c.proc, which) == Open && !PipeAtEof(c.proc, which)
    ensures CoreOk(PipeData(c, which, data, now, env), now)
  {
    hide Send, SendError, UploadOk;
    var p := Note(c.proc.(lastIo := now), Output(c.proc.procId, which, now));
    TraceSnoc(c.proc.log, Output(c.proc.procId, which, now));
    LinkSameChildren(c.link, c.proc, p, now);
    SendsKeep(c.link, p, now, env);
  }

  lemma PipeEofKeeps(c: Core, which: Pipe, now: nat)
    requires CoreOk(c, now) && PipeHandle(c.proc, which) == Open && !PipeAtEof(c.proc, which)
    ensures CoreOk(PipeEof(c, which), now)
  {
    hide UploadOk, MaybeFinalize;
    var p := if which == Out then c.proc.(stdoutClosed := true) else c.proc.(stderrClosed := true);
    var q := Note(p, Ended(which));
    TraceSnoc(p.log, Ended(which));
    MaybeFinalizeKeeps(q, now);
    LinkSameChildren(c.link, c.proc, MaybeFinalize(q), now);
  }

  // ---- Dispatch ----

  lemma {:induction false} LuaStepsKeep(c: Core, acts: seq<LuaAction>, now: nat, env: Env)
    requires CoreOk(c, now) && c.link.tcp != Closed
    ensures CoreOk(LuaSteps(c, acts, now, env), now)
    ensures LuaSteps(c, acts, now, env).link.tcp != Closed
    ensures var r := LuaSteps(c, acts, now, env); r.fs == c.fs && r.upload == c.upload
    decreases |acts|
  {
    hide Send, SendError, LinkOk, ProcOk, UploadOk, Spawn;
    if acts != [] {
      var a := acts[0];
      SendsKeep(c.link, c.proc, now, env);
      if a.SpawnTool? && a.argv != [] {
        SpawnKeeps(c, 0, a.path, a.argv, a.timeoutMs, a.idleTimeoutMs, false, now, env);
        SpawnLeaves(c, 0, a.path, a.argv, a.timeoutMs, a.idleTimeoutMs, false, now, env);
      }
      LuaStepsKeep(LuaStep(c, a, now, env), acts[1..], now, env);
    }
  }

  lemma SpawnLeaves(c: Core, reqId: u32, path: bytes, args: seq<bytes>, timeout: nat, idleTimeout: nat,
                    ack: bool, now: nat, env: Env)
    ensures var r := Spawn(c, reqId, path, args, timeout, idleTimeout, ack, now, env);
            && r == c.(link := r.link, proc := r.proc, nextProcId := r.nextProcId)
            && Stamped(c.link, r.link, now)
  {
    hide Send, SendError, SpawnReply;
    SendsLeave(c.link, now, env);
    SendsLeave(c.link.(closeRefs := c.link.closeRefs + 3), now, env);
  }

  lemma HandleOpKeeps(c: Core, reqId: u32, now: nat, env: Env)
    requires CoreOk(c, now) && c.link.tcp != Closed
    ensures CoreOk(HandleOp(c, reqId, now, env), now)
    ensures HandleOp(c, reqId, now, env).link.tcp != Closed
    ensures var r := HandleOp(c, reqId, now, env); r.fs == c.fs && r.upload == c.upload
  {
    hide SendError, LinkOk, ProcOk, UploadOk, LuaSteps;
    LuaStepsKeep(c, env.lua, now, env);
    var r := LuaSteps(c, env.lua, now, env);
    SendsKeep(r.link, r.proc, now, env);
  }

  lemma DispatchKeeps(c: Core, m: Message, now: nat, env: Env)
    requires CoreOk(c, now) && c.link.tcp != Closed && ValidMessage(m)
    ensures CoreOk(Dispatch(c, m, now, env), now)
    ensures Dispatch(c, m, now, env).link.tcp != Closed
  {
    hide Send, SendError, CoreOk, PutChunk, PutEnd, PutBegin, GetBegin, HandleOp, Spawn, HandleKill,
         HelloReply, PongReply, Kv.Copy, Kv.CopyU64Or, Argv.Args;
    if m.kind == PUT_CHUNK { PutChunkKeeps(c, m.reqId, m.payload, now, env); }
    else if m.kind == PUT_END { PutEndKeeps(c, m.reqId, now, env); }
    else if m.kind == OP { HandleOpKeeps(c, m.reqId, now, env); }
    else if m.kind == PUT_BEGIN { PutBeginKeeps(c, m.reqId, m.payload, now, env); }
    else if m.kind == GET_BEGIN { GetBeginKeeps(c, m.reqId, m.payload, now, env); }
    else if m.kind == KILL { HandleKillKeeps(c, m.reqId, m.payload, now, env); }
    else {
      TellKeeps(c, now, env);
      if m.kind == PROC_SPAWN {
        var path := Kv.Copy(m.payload, PATH(), PATH_CAP);
        if path.Some? {
          SpawnKeeps(c, m.reqId, path.value, Argv.Args(m.payload, path.value),
                     Kv.CopyU64Or(m.payload, TIMEOUT_MS(), 60000),
                     Kv.CopyU64Or(m.payload, IDLE_TIMEOUT_MS(), 10000), true, now, env);
        }
      }
    }
  }

  lemma TellKeeps(c: Core, now: nat, env: Env)
    requires CoreOk(c, now) && c.link.tcp != Closed
    ensures forall m :: CoreOk(Tell(c, m, now, env), now) && Tell(c, m, now, env).link.tcp != Closed
    ensures forall r, f :: CoreOk(Fail(c, r, f, now, env), now) && Fail(c, r, f, now, env).link.tcp != Closed
  {
    hide Send, SendError, LinkOk, ProcOk, UploadOk;
    SendsKeep(c.link, c.proc, now, env);
  }

  lemma {:induction false} ReceiveAllKeeps(c: Core, ms: seq<Message>, now: nat, env: Oracle)
    requires CoreOk(c, now) && c.link.tcp != Closed && forall m <- ms :: ValidMessage(m)
    ensures CoreOk(ReceiveAll(c, ms, now, env), now)
    decreases |ms|
  {
    hide LinkOk, ProcOk, UploadOk, Dispatch;
    if ms != [] {
      var counted := c.(framesRx := c.framesRx + 1, bytesRx := c.bytesRx + WireSize(ms[0]));
      assert CoreOk(counted, now);
      DispatchKeeps(counted, ms[0], now, env(c.framesRx));
      ReceiveAllKeeps(Receive(c, ms[0], now, env), ms[1..], now, env);
    }
  }

  lemma {:induction false} ParseValid(b: bytes)
    ensures forall m <- Parse(b).messages :: ValidMessage(m)
    decreases |b|
  {
    hide DecodeHeader;
    if First(b).Complete? {
      FirstSize(b);
      ParseValid(b[WireSize(First(b).message)..]);
    }
  }

  lemma HeardKeeps(l: Link, p: Proc, now: nat)
    requires LinkOk(l, p, now)
    ensures LinkOk(l.(lastRx := now), p, now)
  {
  }

  lemma ReadKeeps(rx: bytes, c: Core, chunk: bytes, now: nat, env: Oracle)
    requires CoreOk(c, now) && c.link.tcp == Open
    ensures CoreOk(Read(rx, c, chunk, now, env).1, now)
  {
    hide LinkOk, ProcOk, UploadOk, Parse, ReceiveAll, CloseLink;
    var c1 := c.(link := c.link.(lastRx := now));
    HeardKeeps(c.link, c.proc, now);
    assert CoreOk(c1, now);
    CloseKeeps(c1.link, c1.proc, now);
    ParseValid(rx + chunk);
    var p := Parse(rx + chunk);
    ReceiveAllKeeps(c1, p.messages, now, env);
    var c2 := ReceiveAll(c1, p.messages, now, env);
    CloseKeeps(c2.link, c2.proc, now);
  }

  // ---- Callbacks ----

  /** When the count reaches zero no child is running, so proc_abort only clears the slot. */
  lemma FreedProcOk(l: Link, p: Proc, now: nat)
    requires ProcOk(p, now) && LinkOk(l, p, now) && l.closeRefs <= 0
    ensures !p.overlapped ==> !p.active && ProcAbort(p) == Reset(p)
    ensures ProcOk(ProcAbort(p), now) && LinkOk(l, ProcAbort(p), now)
  {
  }

  /** The link once a closed handle has given its reference back. */
  function Returned(l: Link): Link {
    l.(closeRefs := l.closeRefs - 1, freed := l.freed + One(l.closeRefs <= 1))
  }

  lemma ReleaseKeeps(c: Core, now: nat, env: Env)
    requires ProcOk(c.proc, now) && UploadOk(c.upload, c.fs, now) && c.download == IDLE
    requires TallyOk(c.tally, c.upload)
    requires LinkOk(Returned(c.link), c.proc, now)
    ensures CoreOk(Release(c, env), now)
  {
    hide Abort, UploadOk, ProcOk, LinkOk, ProcAbort;
    AbortOwned(c.upload, c.fs, now, env);
    NothingToAbort(Abort(c.fs, c.upload, env), env);
    if c.link.closeRefs <= 1 {
      FreedProcOk(Returned(c.link), c.proc, now);
    }
  }

  lemma NothingToAbort(fs: Fs, env: Env)
    ensures Abort(fs, IDLE, env) == fs
  {
  }

  /** Below 2^64 ms no elapsed-time subtraction wraps. */
  lemma ElapsedExact(now: nat, since: nat)
    requires since <= now < TWO_64
    ensures Elapsed(now, since) == now - since
  {
  }

  lemma SendTimes(l: Link, m: Message, now: nat, env: Env)
    requires l.lastTx <= now
    ensures var r := Send(l, m, now, env).0;
            && r.lastRx == l.lastRx && (l.closed ==> r.closed) && l.lastTx <= r.lastTx
            && (ValidMessage(m) ==> r.closed || r.lastTx == now)
  {
  }

  /** After the heartbeat's part of a tick the session is closed or was not silent for 5 s. */
  lemma PingTimely(c: Core, now: nat, env: Env)
    requires c.link.lastTx <= now < TWO_64
    ensures var r := TickPing(c, now, env);
            && r.link.lastRx == c.link.lastRx && (c.link.closed ==> r.link.closed)
            && r.link.lastTx <= now
            && (r.link.closed || now < r.link.lastTx + HEARTBEAT_IDLE_MS)
  {
    hide Send, Elapsed;
    ElapsedExact(now, c.link.lastTx);
    SendTimes(c.link, Message(PING, c.nextReqId, PingText()), now, env);
    PingValid(c.nextReqId);
    SendLastTx(c.link, Message(PING, c.nextReqId, PingText()), now, env);
  }

  lemma PingValid(id: u32)
    ensures ValidMessage(Message(PING, id, PingText()))
  {
  }

  lemma SendLastTx(l: Link, m: Message, now: nat, env: Env)
    requires l.lastTx <= now
    ensures Send(l, m, now, env).0.lastTx <= now
  {
  }

  lemma StallTimes(c: Core, now: nat, env: Env)
    requires c.link.lastTx <= now
    ensures var r := CheckUpload(c, now, env);
            && r.link.lastRx == c.link.lastRx && (c.link.closed ==> r.link.closed)
            && c.link.lastTx <= r.link.lastTx
  {
    hide Send, ErrorText, Elapsed, Abort;
    var text := ErrorText(Stalled, env.strerror);
    SendTimes(c.link, Message(ERROR, c.upload.reqId, text), now, env);
  }

  lemma TickedLink(l: Link, p: Proc, now: nat)
    requires LinkOk(l, p, now)
    requires now < l.lastRx + SESSION_IDLE_MS
    requires l.closed || now < l.lastTx + HEARTBEAT_IDLE_MS
    ensures LinkOk(l.(tickAt := now), p, now)
  {
  }

  lemma TickKeeps(c: Core, now: nat, env: Env)
    requires CoreOk(c, now) && now < TWO_64
    ensures CoreOk(Tick(c, now, env), now)
  {
    hide Send, LinkOk, ProcOk, UploadOk, CloseLink, CheckUpload, CheckDownload, CheckProc, Elapsed, TickPing;
    CloseKeeps(c.link, c.proc, now);
    if !c.link.closed && Elapsed(now, c.link.lastRx) < SESSION_IDLE_MS {
      var c1 := TickPing(c, now, env);
      TickPingKeeps(c, now, env);
      CheckUploadKeeps(c1, now, env);
      var c2 := CheckUpload(c1, now, env);
      CheckProcKeeps(c2.proc, now);
      var p := CheckProc(c2.proc, now);
      LinkSameChildren(c2.link, c2.proc, p, now);
      LinkStamps(c.link, c.proc, now);
      ElapsedExact(now, c.link.lastRx);
      PingTimely(c, now, env);
      StallTimes(c1, now, env);
      TickedLink(c2.link, p, now);
    }
  }

  /** What a tick does to the child slot. */
  lemma TickProc(c: Core, now: nat, env: Env)
    requires now < TWO_64 && c.link.lastRx <= now
    ensures var r, open := Tick(c, now, env), !c.link.closed && now < c.link.lastRx + SESSION_IDLE_MS;
            r.proc == (if open then CheckProc(c.proc, now) else c.proc) && r.nextProcId == c.nextProcId
  {
    hide Send, Elapsed, PingText, CloseLink, CheckUpload, CheckDownload, CheckProc;
    ElapsedExact(now, c.link.lastRx);
    CheckLeaves(TickPing(c, now, env), now, env);
  }

  lemma CheckLeaves(c: Core, now: nat, env: Env)
    ensures var r := CheckDownload(CheckUpload(c, now, env), now, env);
            r.proc == c.proc && r.nextProcId == c.nextProcId
  {
    hide SendError, IsStalled, Abort;
  }

  lemma LinkStamps(l: Link, p: Proc, now: nat)
    requires LinkOk(l, p, now)
    ensures l.lastRx <= now && l.lastTx <= now
  {
  }

  lemma TickPingKeeps(c: Core, now: nat, env: Env)
    requires CoreOk(c, now)
    ensures CoreOk(TickPing(c, now, env), now)
  {
    hide Send, LinkOk, ProcOk, UploadOk, Elapsed;
    SendsKeep(c.link, c.proc, now, env);
  }

  lemma HandleClosedKeeps(c: Core, now: nat, e: Event)
    requires CoreOk(c, now)
    requires match e
             case TimerHandleClosed(_) => c.link.timer == Closing
             case TcpHandleClosed(_) => c.link.tcp == Closing && c.link.inflight == []
             case ProcessHandleClosed(_) => c.proc.process == Closing
             case PipeHandleClosed(which, _) => PipeHandle(c.proc, which) == Closing
             case DetachedPipeClosed(which) => PipeHandle(c.proc, which) == Detached
             case _ => false
    ensures CoreOk(Callback(c, now, e), now)
  {
    hide Release, UploadOk, LinkOk, ProcOk;
    match e
    case TimerHandleClosed(env) =>
      ConnectionGivesBack(c.link, c.proc, now);
      ReleaseKeeps(c.(link := c.link.(timer := Closed)), now, env);
    case TcpHandleClosed(env) =>
      ConnectionGivesBack(c.link, c.proc, now);
      ReleaseKeeps(c.(link := c.link.(tcp := Closed)), now, env);
    case ProcessHandleClosed(env) =>
      ProcessGivesBack(c.link, c.proc, now);
      ReleaseKeeps(c.(proc := c.proc.(process := Closed)), now, env);
    case PipeHandleClosed(which, env) =>
      PipeGivesBack(c.link, c.proc, which, now);
      ReleaseKeeps(c.(proc := WithPipeClosed(c.proc, which)), now, env);
    case DetachedPipeClosed(which) => PipeEndsAlone(c.link, c.proc, which, now);
  }

  lemma ConnectionGivesBack(l: Link, p: Proc, now: nat)
    requires LinkOk(l, p, now)
    ensures l.timer == Closing ==> LinkOk(Returned(l.(timer := Closed)), p, now)
    ensures l.tcp == Closing && l.inflight == [] ==> LinkOk(Returned(l.(tcp := Closed)), p, now)
  {
  }

  lemma ProcessGivesBack(l: Link, p: Proc, now: nat)
    requires LinkOk(l, p, now) && ProcOk(p, now) && p.process == Closing
    ensures LinkOk(Returned(l), p.(process := Closed), now) && ProcOk(p.(process := Closed), now)
  {
  }

  lemma PipeGivesBack(l: Link, p: Proc, which: Pipe, now: nat)
    requires LinkOk(l, p, now) && ProcOk(p, now) && PipeHandle(p, which) == Closing
    ensures var q := WithPipeClosed(p, which); LinkOk(Returned(l), q, now) && ProcOk(q, now)
  {
  }

  lemma PipeEndsAlone(l: Link, p: Proc, which: Pipe, now: nat)
    requires LinkOk(l, p, now) && ProcOk(p, now) && PipeHandle(p, which) == Detached
    ensures var q := WithPipeClosed(p, which); LinkOk(l, q, now) && ProcOk(q, now)
  {
  }

  lemma CallbackKeeps(w: World, now: nat, e: Event)
    requires CoreOk(w.core, now) && Enabled(w, e) && !e.ReadBytes? && now < TWO_64
    ensures CoreOk(Callback(w.core, now, e), now)
  {
    hide LinkOk, ProcOk, UploadOk, CloseLink, Tick, Release, ProcExit, PipeData, PipeEof, WriteDone;
    var c := w.core;
    match e
    case ReadEnd => CloseKeeps(c.link, c.proc, now);
    case HeartbeatTick(env) => TickKeeps(c, now, env);
    case WriteCompleted => WriteDoneKeeps(c.link, c.proc, now);
    case ChildExited(code, env) => ProcExitKeeps(c, code, now, env);
    case ChildOutput(which, data, env) => PipeDataKeeps(c, which, data, now, env);
    case ChildEof(which) => PipeEofKeeps(c, which, now);
    case _ => HandleClosedKeeps(c, now, e);
  }

  /** The guard of on_write_done always holds, so a completed buffer always leaves the account. */
  lemma WriteDoneKeeps(l: Link, p: Proc, now: nat)
    requires LinkOk(l, p, now) && l.inflight != []
    ensures LinkOk(WriteDone(l), p, now)
    ensures WriteDone(l).pending == l.pending - |l.inflight[0]|
  {
  }
}
