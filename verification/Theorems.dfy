/** What holds in every reachable state of a session. */
module Theorems {
  import opened Bytes
  import opened Frame
  import opened Stream
  import opened SessionState
  import opened Transfers
  import opened Procs
  import opened Server
  import opened Lifetime
  import opened Invariants
  import opened Runs

  /** The handles inside the session that libuv has still to finish closing, or has not begun to: all
      but the open socket, which has no reference until it is closed. */
  function Outstanding(c: Core): nat {
    One(Live(c.link.timer)) + One(c.link.tcp == Closing)
    + One(Live(c.proc.process)) + One(Live(c.proc.stdoutPipe)) + One(Live(c.proc.stderrPipe))
  }

  /** close_refs falls short of the outstanding handles by exactly the pipes a failed spawn left
      closing, so it is exact if and only if there are none. The session is freed exactly once: not
      while it is open, and as soon as it is closed and the last counted handle has called back. */
  lemma ReferenceCounting(w: World)
    requires Reachable(w) && !w.core.proc.overlapped
    ensures var refs, p := w.core.link.closeRefs, w.core.proc;
            && refs + DetachedPipes(p) == Outstanding(w.core)
            && (refs == Outstanding(w.core) <==> DetachedPipes(p) == 0)
            && w.core.link.freed == (if w.core.link.closed && Outstanding(w.core) == DetachedPipes(p) then 1 else 0)
            && (!w.core.link.closed ==> refs >= 1)
  {
    hide Reachable;
    ReachableOk(w);
  }

  /** The only thing that can still happen to a freed session is the end of a detached pipe. */
  lemma AfterFree(w: World, e: Event)
    requires Reachable(w) && !w.core.proc.overlapped && w.core.link.freed > 0
    ensures Enabled(w, e) <==> e.DetachedPipeClosed? && PipeHandle(w.core.proc, e.pipe) == Detached
  {
    hide Reachable, UploadOk;
    ReachableOk(w);
  }

  /** After the free no event can touch the session if and only if no failed spawn has left a pipe
      closing. */
  lemma NothingAfterFree(w: World)
    requires Reachable(w) && !w.core.proc.overlapped && w.core.link.freed > 0
    ensures (forall e :: !Enabled(w, e)) <==> DetachedPipes(w.core.proc) == 0
  {
    hide Reachable, Enabled;
    AfterFree(w, DetachedPipeClosed(Out));
    AfterFree(w, DetachedPipeClosed(Err));
    forall e | DetachedPipes(w.core.proc) == 0 ensures !Enabled(w, e) {
      AfterFree(w, e);
    }
  }

  /** The step that frees the session never finds a running child, and leaves no descriptor and (if
      the unlink succeeds) no temporary file of an unfinished upload. */
  lemma FreeIsClean(w: World, now: nat, e: Event)
    requires Reachable(w) && !w.core.proc.overlapped && w.clock <= now < TWO_64
    requires Enabled(w, e) && IsHandleClosed(e)
    requires Step(w, now, e).core.link.freed > w.core.link.freed
    ensures !w.core.proc.active
    ensures Step(w, now, e).core.fs.open == map[]
    ensures w.core.upload.active && w.core.upload.tmp.Some? && e.env.unlinkOk(w.core.upload.tmp.value) ==>
              w.core.upload.tmp.value !in Step(w, now, e).core.fs.files
  {
    hide Reachable, Abort, BeginReply, Part;
    ReachableOk(w);
    var c := w.core;
    AbortOwned(c.upload, c.fs, w.clock, e.env);
    NothingToAbort(Abort(c.fs, c.upload, e.env), e.env);
  }

  /** No other callback frees. */
  lemma OnlyHandlesFree(c: Core, now: nat, e: Event)
    requires !IsHandleClosed(e)
    ensures Callback(c, now, e).link.freed == c.link.freed
  {
    hide Send, CheckProc, Abort, ExitReply, MaybeFinalize, ErrorText, PingText, Elapsed, PipeKind;
    forall l, m, env ensures Send(l, m, now, env).0.freed == l.freed {
      SendFreed(l, m, now, env);
    }
  }

  /** When the peer is gone an open session is closed: its timer and its socket start closing, with one more
      reference for the socket, and nothing else changes. */
  lemma PeerGone(w: World, now: nat)
    requires Reachable(w) && Enabled(w, ReadEnd)
    ensures var c, r := w.core, Step(w, now, ReadEnd).core;
            && r == c.(link := r.link)
            && r.link == c.link.(closed := true, timerStarted := false, timer := Closing, tcp := Closing,
                                 closeRefs := c.link.closeRefs + 1)
  {
    hide Reachable, ProcOk, UploadOk;
    ReachableOk(w);
  }

  /** The silent end of a detached pipe: one such pipe less, the same references, and nothing else. */
  lemma DetachedEnds(w: World, now: nat, which: Pipe)
    requires Enabled(w, DetachedPipeClosed(which))
    ensures var c, r := w.core, Step(w, now, DetachedPipeClosed(which)).core;
            && DetachedPipes(r.proc) == DetachedPipes(c.proc) - 1 && Children(r.proc) == Children(c.proc)
            && r == c.(proc := c.proc.(stdoutPipe := r.proc.stdoutPipe, stderrPipe := r.proc.stderrPipe))
  {
  }

  /** Respawning, which the agent allows as soon as the child has exited: the count then exceeds the
      outstanding handles by the counted handles of the previous child that libuv still holds, for
      they are initialised again under it; and nothing is initialised again under libuv if and only if
      it holds no handle of an earlier attempt, counted or detached. */
  lemma RespawnExactly(c: Core, reqId: u32, path: bytes, args: seq<bytes>, timeout: nat,
                       idleTimeout: nat, now: nat, env: Env)
    requires CoreOk(c, now) && c.link.tcp != Closed && !c.proc.overlapped && !c.proc.active
    requires env.launch(c.proc.spawns).ChildStarted?
    ensures var r := Spawn(c, reqId, path, args, timeout, idleTimeout, false, now, env);
            && r.link.closeRefs == Outstanding(r) + Children(c.proc)
            && (r.link.closeRefs == Outstanding(r) && DetachedPipes(c.proc) == 0 <==> !HandlesLive(c.proc))
            && (r.proc.overlapped <==> HandlesLive(c.proc))
  {
    hide UploadOk;
  }

  // ---- The child ----

  function Count(log: seq<ProcEvent>, which: ProcEvent -> bool): nat {
    if log == [] then 0 else Count(log[..|log| - 1], which) + One(which(log[|log| - 1]))
  }

  function IsSpawn(e: ProcEvent): bool { e.Spawned? }
  function IsExit(e: ProcEvent): bool { e.ExitSent? }
  function IsFinal(e: ProcEvent): bool { e.Finalized? }

  /** A history that fits the run pattern has as many exits and finalisations as spawns, save for
      the run still going on. */
  lemma {:induction false} RunsBalance(log: seq<ProcEvent>)
    requires Trace(log).Some?
    ensures var phase := Trace(log).value;
            && Count(log, IsSpawn) == Count(log, IsFinal) + One(phase.Running?)
            && Count(log, IsExit) == Count(log, IsFinal) + One(phase.Running? && phase.exited)
  {
    if log != [] {
      RunsBalance(log[..|log| - 1]);
    }
  }

  /** For every interleaving of exit, output and pipe ends, the child's history is a sequence of
      runs: one spawn, output under the run's own id and before the end of its pipe, one end of each
      pipe, one exit whose reason is the last kill tried, one finalisation; and the slot holds what
      the history says: what was asked for, the time of the last output, the kill, what has ended. */
  lemma ChildRuns(w: World)
    requires Reachable(w) && !w.core.proc.overlapped
    ensures Trace(w.core.proc.log) == Some(PhaseOf(w.core.proc))
    ensures var log, p := w.core.proc.log, w.core.proc;
            p.stdoutPipe != Open ==>
              Count(log, IsSpawn) == Count(log, IsExit) == Count(log, IsFinal)
    ensures w.core.proc.active ==> w.core.proc.process == Open && w.core.proc.stdoutPipe == Open
  {
    hide Reachable, LinkOk, UploadOk, Trace;
    ReachableOk(w);
    RunsBalance(w.core.proc.log);
  }

  // ---- Queue, transfers, counters ----

  /** What a send counts: every frame that is handed to uv_write, with all its bytes, and no other. */
  lemma SendCounts(l: Link, m: Message, now: nat, env: Env)
    ensures var r := Send(l, m, now, env).0;
            var handed := !l.closed && ValidMessage(m) && l.pending + WireSize(m) <= MAX_WRITE_QUEUE;
            && r.framesTx == l.framesTx + One(handed)
            && r.bytesTx == l.bytesTx + if handed then WireSize(m) else 0
  {
    hide EncodeMessage;
  }

  /** The queue account is exact and bounded, so the guard of the write callback always holds. */
  lemma QueueAccount(w: World)
    requires Reachable(w)
    ensures w.core.link.pending == Sum(w.core.link.inflight) <= MAX_WRITE_QUEUE
    ensures w.core.link.inflight != [] ==>
              WriteDone(w.core.link).pending == Sum(w.core.link.inflight[1..])
  {
    hide Reachable;
    ReachableOk(w);
  }

  /** Between events: no download is in progress; an upload slot is idle and owns nothing or active
      and owns one descriptor and one temporary file, as long as the bytes accepted; no descriptor
      was ever closed or written after it was gone. */
  lemma TransferSlots(w: World)
    requires Reachable(w)
    ensures w.core.download == IDLE && w.core.fs.stray == 0
    ensures !w.core.upload.active ==> w.core.upload == IDLE && w.core.fs.open == map[]
    ensures w.core.upload.active ==>
              var u := w.core.upload;
              && u.path.Some? && u.tmp == Some(Part(u.path.value))
              && w.core.fs.open == map[u.file := u.tmp.value]
              && (u.total < TWO_63 ==>
                    u.tmp.value in w.core.fs.files
                    && |w.core.fs.files[u.tmp.value]| == u.offset <= u.total)
  {
    hide Reachable, LinkOk, ProcOk, BeginReply, Part;
    ReachableOk(w);
  }

  /** The download branches of the timeout check and of "already active" never act. */
  lemma DownloadNeverPending(w: World, now: nat, env: Env)
    requires Reachable(w)
    ensures CheckDownload(w.core, now, env) == w.core && !w.core.download.active
  {
    hide Reachable, LinkOk, ProcOk, UploadOk;
    ReachableOk(w);
  }

  /** PUT_END after an accepted PUT_BEGIN can always format its reply. */
  lemma EndReplyFits(w: World)
    requires Reachable(w) && w.core.upload.active
    ensures |EndReply(PathOf(w.core.upload), w.core.upload.total)| < REPLY_CAP
  {
    hide Reachable, LinkOk, ProcOk, BeginReply, EndReply, Part;
    ReachableOk(w);
    var u := w.core.upload;
    EndReplyShorter(u.reqId, u.path.value, u.total);
  }

  lemma Conservation(w: World)
    requires Reachable(w)
    ensures var t := w.core.tally; t.completes + t.aborts + One(w.core.upload.active) <= t.starts
    ensures !w.core.link.closed ==> w.core.bytesRx + |w.rx| == w.taken && |w.rx| <= RX_CAP
  {
    hide Reachable, LinkOk, ProcOk, UploadOk, First;
    ReachableOk(w);
  }

  // ---- Timers ----

  /** If the last tick (or the accept) was at most d ms ago, an open session has heard something
      within 15000 + d ms and has handed a frame to uv_write within 5000 + d ms, be it refused (the
      stamp is set before the call); and no elapsed time wraps. */
  lemma SilenceBounds(w: World, now: nat, d: nat)
    requires Reachable(w) && w.clock <= now < TWO_64
    requires !w.core.link.closed && now <= w.core.link.tickAt + d
    ensures Elapsed(now, w.core.link.lastRx) == now - w.core.link.lastRx < SESSION_IDLE_MS + d
    ensures Elapsed(now, w.core.link.lastTx) == now - w.core.link.lastTx < HEARTBEAT_IDLE_MS + d
  {
    hide Reachable, ProcOk, UploadOk;
    ReachableOk(w);
  }

  /** A tick tries to kill a running child exactly when it finds the session open and not silent for
      15 s, and the child has run for its timeout, or else has been silent for its idle timeout; zero
      switches one off. That is one kill, with its reason, and all that happens to the child. */
  lemma ChildTimeouts(w: World, now: nat, env: Env)
    requires Reachable(w) && w.clock <= now < TWO_64
    ensures var l, p, q := w.core.link, w.core.proc, Step(w, now, HeartbeatTick(env)).core.proc;
            var checked := !l.closed && now < l.lastRx + SESSION_IDLE_MS && p.active;
            var overdue := p.timeout > 0 && now >= p.started + p.timeout;
            var silent := p.idleTimeout > 0 && now >= p.lastIo + p.idleTimeout;
            q == if checked && overdue then p.(kill := Timeout, log := p.log + [KillTried(Timeout)])
                 else if checked && silent then p.(kill := Idle, log := p.log + [KillTried(Idle)])
                 else p
  {
    hide Reachable, UploadOk, Elapsed, Tick;
    ReachableOk(w);
    ElapsedExact(now, w.core.proc.started);
    ElapsedExact(now, w.core.proc.lastIo);
    TickProc(w.core, now, env);
  }
}
