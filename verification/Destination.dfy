/** Over a whole run the files behave like an atomic store: a destination holds what its last effective
    PUT_END left there, whole or cleared, and nothing in between; except the names that served as
    temporary files, which an upload overwrites without asking. */
module Destination {
  import opened Bytes
  import opened Frame
  import opened Stream
  import opened SessionState
  import opened Transfers
  import opened Procs
  import opened Protocol
  import opened Server
  import opened Lifetime
  import opened Invariants
  import opened Runs
  import Kv
  import Argv

  /** What a PUT_END that found all declared bytes did to its destination: the client's bytes stand
      there now, or the old file was cleared away and the rename failed. */
  datatype Effect =
    | Stored(path: bytes, data: bytes, size: nat)
    | Cleared(path: bytes)

  /** An upload in progress as an observer of the frames sees it: what its PUT_BEGIN asked for, the
      descriptor it got, the bytes accepted since (and their number, in 64 bits), and the time of the
      last progress. */
  datatype Job = Job(
    reqId: u32, path: bytes, size: nat, overwrite: bool, chunk: nat, fd: nat, received: bytes, offset: nat,
    at: nat)

  /** What an observer of the frames, of the answers to the agent's calls and of the clock knows: the
      upload in progress, the temporary names used, the effects on destinations, whether some upload
      declared 2^63 bytes or more, and when bytes last arrived. No part of it is read from the
      session's slots. */
  datatype Hist = Hist(job: Option<Job>, temps: set<bytes>, effects: seq<Effect>, huge: bool, heard: nat)

  function NoHist(now: nat): Hist { Hist(None, {}, [], false, now) }

  function RememberBegin(h: Hist, reqId: u32, payload: bytes, now: nat, env: Env): Hist {
    var path, size := Kv.Copy(payload, PATH(), PATH_CAP), Kv.CopyU64(payload, SIZE());
    if h.job.Some? || path.None? || size.None? then h
    else
      var g := h.(temps := h.temps + {Part(path.value)}, huge := h.huge || size.value >= TWO_63);
      if !env.openOk || |BeginReply(reqId, path.value, size.value)| >= REPLY_CAP then g
      else
        var overwrite := Kv.Copy(payload, OVERWRITE(), 16) == Some(ONE());
        var chunk := Kv.CopyU64Or(payload, CHUNK_SIZE(), 4096);
        g.(job := Some(Job(reqId, path.value, size.value, overwrite, chunk, env.fd, [], 0, now)))
  }

  /** A chunk that exceeds the declared size or is not written whole ends the upload. */
  function RememberChunk(h: Hist, reqId: u32, data: bytes, now: nat, env: Env): Hist {
    if h.job.None? || h.job.value.reqId != reqId then h
    else
      var j := h.job.value;
      var next := (j.offset + |data|) % TWO_64;
      if next > j.size || env.written < |data| then h.(job := None)
      else h.(job := Some(j.(received := j.received + data, offset := next, at := now)))
  }

  function RememberEnd(h: Hist, reqId: u32, env: Env): Hist {
    if h.job.None? || h.job.value.reqId != reqId then h
    else
      var j, g := h.job.value, h.(job := None);
      if j.offset != j.size || !env.closeOk then g
      else if env.renameOk then g.(effects := h.effects + [Stored(j.path, j.received, j.size)])
      else if j.overwrite && env.unlinkOk(j.path) then g.(effects := h.effects + [Cleared(j.path)])
      else g
  }

  function Remember(h: Hist, m: Message, now: nat, env: Env): Hist {
    if m.kind == PUT_BEGIN then RememberBegin(h, m.reqId, m.payload, now, env)
    else if m.kind == PUT_CHUNK then RememberChunk(h, m.reqId, m.payload, now, env)
    else if m.kind == PUT_END then RememberEnd(h, m.reqId, env)
    else h
  }

  /** No byte of the upload was accepted for 20 s; a time of zero counts as none. */
  predicate Overdue(h: Hist, now: nat) {
    h.job.Some? && h.job.value.at != 0 && now >= h.job.value.at + TRANSFER_IDLE_MS
  }

  /** A tick that finds the session open and not silent for 15 s gives up an overdue upload; the
      callback that gives the last reference back gives up any. */
  function RememberCallback(h: Hist, l: Link, now: nat, e: Event): Hist {
    if e.HeartbeatTick? && !l.closed && now < h.heard + SESSION_IDLE_MS && Overdue(h, now) then h.(job := None)
    else if IsHandleClosed(e) && l.closeRefs <= 1 then h.(job := None)
    else h
  }

  function At(fs: Fs, q: bytes): Option<bytes> {
    if q in fs.files then Some(fs.files[q]) else None
  }

  /** The atomic store: q holds what the last effect on it left there. */
  function Expected(effects: seq<Effect>, first: Option<bytes>, q: bytes): Option<bytes> {
    if effects == [] then first
    else
      var e := effects[|effects| - 1];
      if e.path != q then Expected(effects[..|effects| - 1], first, q)
      else if e.Stored? then Some(e.data)
      else None
  }

  lemma ExpectedSnoc(effects: seq<Effect>, e: Effect, first: Option<bytes>, q: bytes)
    ensures Expected(effects + [e], first, q) ==
            if e.path != q then Expected(effects, first, q) else if e.Stored? then Some(e.data) else None
  {
    assert (effects + [e])[..|effects|] == effects;
  }

  function PART(): bytes { Ascii(".part") }

  /** A path that is no temporary name. */
  predicate Final(q: bytes) {
    |q| < 5 || q[|q| - 5..] != PART()
  }

  lemma PartNotFinal(p: bytes)
    ensures !Final(Part(p))
  {
    assert Part(p)[|Part(p)| - 5..] == PART();
  }

  predicate Whole(e: Effect) {
    e.Stored? ==> |e.data| == e.size
  }

  /** The upload slot for a job, or the idle one. */
  function SlotFor(job: Option<Job>): Transfer {
    match job
    case None => IDLE
    case Some(j) =>
      Transfer(true, j.overwrite, Upload, j.reqId, j.fd, j.size, j.offset, j.at, j.chunk, Some(j.path),
               Some(Part(j.path)))
  }

  /** The slot is what the observer says; the temporary file of the upload in progress is exactly what
      was received. */
  predicate HistOk(h: Hist, c: Core) {
    && c.upload == SlotFor(h.job)
    && c.link.lastRx == h.heard
    && (forall t <- h.temps :: !Final(t))
    && (h.job.Some? ==> Part(h.job.value.path) in h.temps)
    && (!h.huge ==>
          && (forall i :: 0 <= i < |h.effects| ==> Whole(h.effects[i]))
          && (h.job.Some? ==>
                var j := h.job.value;
                j.size < TWO_63 && j.offset == |j.received| && At(c.fs, Part(j.path)) == Some(j.received)))
  }

  // ---- Each upload frame ----

  lemma BeginFiles(h: Hist, c: Core, reqId: u32, payload: bytes, now: nat, env: Env, q: bytes)
    requires CoreOk(c, now) && HistOk(h, c)
    ensures var g, r := RememberBegin(h, reqId, payload, now, env), PutBegin(c, reqId, payload, now, env);
            HistOk(g, r) && (q !in g.temps ==> At(r.fs, q) == At(c.fs, q))
  {
    hide Send, SendError, LinkOk, ProcOk, BeginReply, Part, Kv.Copy, Kv.CopyU64, Kv.CopyU64Or, PATH, SIZE,
         OVERWRITE, CHUNK_SIZE, ONE, Final, Whole;
    SendsLeave(c.link, now, env);
    var path := Kv.Copy(payload, PATH(), PATH_CAP);
    if path.Some? {
      PartNotFinal(path.value);
    }
  }

  lemma ChunkFiles(h: Hist, c: Core, reqId: u32, data: bytes, now: nat, env: Env, q: bytes)
    requires CoreOk(c, now) && HistOk(h, c) && |data| <= MAX_FRAME_PAYLOAD
    ensures var g, r := RememberChunk(h, reqId, data, now, env), PutChunk(c, reqId, data, now, env);
            HistOk(g, r) && (q !in g.temps ==> At(r.fs, q) == At(c.fs, q))
  {
    hide Send, SendError, LinkOk, ProcOk, BeginReply, Part, WriteAt, Final, Whole;
    SendsLeave(c.link, now, env);
    var u := c.upload;
    if u.active {
      WholeWrite(u, c.fs, data, now, env);
      WriteCounts(c.fs, u.file, u.offset, data, env);
    }
  }

  lemma WriteCounts(fs: Fs, fd: int, at: nat, data: bytes, env: Env)
    requires fd in fs.open
    ensures WriteAt(fs, fd, at, data, env).1 == |data| <==> env.written >= |data|
  {
  }

  lemma RenameFiles(u: Transfer, fs: Fs, env: Env, q: bytes)
    requires u.path.Some? && u.tmp == Some(Part(u.path.value)) && u.tmp.value in fs.files
    requires q != u.tmp.value
    ensures var (fs1, renamed) := FinalizeRename(fs, u, env);
            && renamed == env.renameOk
            && At(fs1, q) == (if q != u.path.value then At(fs, q)
                              else if renamed then At(fs, u.tmp.value)
                              else if u.overwrite && env.unlinkOk(q) then None
                              else At(fs, q))
  {
    assert Part(u.path.value) != u.path.value;
  }

  /** PUT_END leaves every path but its temporary file as the atomic store has it. */
  lemma EndFiles(h: Hist, c: Core, reqId: u32, now: nat, env: Env, first: Option<bytes>, q: bytes)
    requires CoreOk(c, now) && HistOk(h, c) && !h.huge && q !in h.temps
    requires At(c.fs, q) == Expected(h.effects, first, q)
    ensures var g, r := RememberEnd(h, reqId, env), PutEnd(c, reqId, now, env);
            At(r.fs, q) == Expected(g.effects, first, q)
  {
    hide Send, SendError, LinkOk, ProcOk, BeginReply, EndReply, Part, FinalizeRename, Final, Whole, Expected;
    var u := c.upload;
    if u.active {
      var closed := CloseFd(c.fs, u.file);
      RenameFiles(u.(file := -1), closed, env, q);
      var j := h.job.value;
      ExpectedSnoc(h.effects, Stored(j.path, j.received, j.size), first, q);
      ExpectedSnoc(h.effects, Cleared(j.path), first, q);
    }
  }

  lemma EndHist(h: Hist, c: Core, reqId: u32, now: nat, env: Env)
    requires CoreOk(c, now) && HistOk(h, c)
    ensures HistOk(RememberEnd(h, reqId, env), PutEnd(c, reqId, now, env))
  {
    hide Send, SendError, LinkOk, ProcOk, BeginReply, EndReply, Part, FinalizeRename, Final, Abort;
    SendsLeave(c.link, now, env);
  }

  /** What PUT_BEGIN does to the file of its temporary name, whatever stood there: lost when the open
      succeeds, and removed when the upload is given up at once and the unlink succeeds. */
  lemma BeginOutcome(c: Core, reqId: u32, payload: bytes, now: nat, env: Env, path: bytes, size: nat)
    requires CoreOk(c, now) && !c.upload.active
    requires Kv.Copy(payload, PATH(), PATH_CAP) == Some(path) && Kv.CopyU64(payload, SIZE()) == Some(size)
    ensures var r := PutBegin(c, reqId, payload, now, env);
            var given := !env.openOk || |BeginReply(reqId, path, size)| >= REPLY_CAP;
            && r.upload.active == !given
            && At(r.fs, Part(path)) == (if given && env.unlinkOk(Part(path)) then None
                                        else if env.openOk then Some([])
                                        else At(c.fs, Part(path)))
            && forall q :: q != Part(path) ==> At(r.fs, q) == At(c.fs, q)
  {
    hide Send, SendError, LinkOk, ProcOk, BeginReply, Part, Kv.Copy, Kv.CopyU64, Kv.CopyU64Or, PATH, SIZE,
         OVERWRITE, CHUNK_SIZE, ONE;
  }

  /** What PUT_END does to the destination of a complete upload. The finalisation is not atomic: with
      overwrite the old file is unlinked first, so the destination ends absent exactly when the
      unlink succeeds and the rename fails. */
  lemma EndOutcome(c: Core, reqId: u32, now: nat, env: Env)
    requires CoreOk(c, now) && c.upload.active && c.upload.reqId == reqId
    requires c.upload.offset == c.upload.total
    ensures var u, r := c.upload, PutEnd(c, reqId, now, env);
            At(r.fs, PathOf(u)) ==
            if !env.closeOk then At(c.fs, PathOf(u))
            else if env.renameOk then At(c.fs, Part(PathOf(u)))
            else if u.overwrite && env.unlinkOk(PathOf(u)) then None
            else At(c.fs, PathOf(u))
  {
    hide Send, SendError, LinkOk, ProcOk, BeginReply, EndReply;
    assert Part(c.upload.path.value) != c.upload.path.value;
  }

  lemma OtherFiles(c: Core, m: Message, now: nat, env: Env)
    requires CoreOk(c, now) && c.link.tcp != Closed
    requires m.kind != PUT_BEGIN && m.kind != PUT_CHUNK && m.kind != PUT_END
    ensures var r := Dispatch(c, m, now, env); r.fs == c.fs && r.upload == c.upload
  {
    hide Send, SendError, CoreOk, GetBegin, HandleOp, Spawn, HelloReply, PongReply, Kv.Copy, Kv.CopyU64Or,
         Argv.Args, KillReply, ProcIdIn, PATH, TIMEOUT_MS, IDLE_TIMEOUT_MS;
    if m.kind == GET_BEGIN {
      GetBeginKeeps(c, m.reqId, m.payload, now, env);
    } else if m.kind == OP {
      HandleOpKeeps(c, m.reqId, now, env);
    } else if m.kind == PROC_SPAWN {
      var path := Kv.Copy(m.payload, PATH(), PATH_CAP);
      if path.Some? {
        SpawnLeaves(c, m.reqId, path.value, Argv.Args(m.payload, path.value),
                    Kv.CopyU64Or(m.payload, TIMEOUT_MS(), 60000),
                    Kv.CopyU64Or(m.payload, IDLE_TIMEOUT_MS(), 10000), true, now, env);
      }
    }
  }

  /** The files are the atomic store's, but for the temporary names. */
  predicate Sound(h: Hist, first: Option<bytes>, c: Core, q: bytes) {
    HistOk(h, c) && (h.huge || q in h.temps || At(c.fs, q) == Expected(h.effects, first, q))
  }

  lemma MessageSound(h: Hist, first: Option<bytes>, c: Core, m: Message, now: nat, env: Env, q: bytes)
    requires CoreOk(c, now) && c.link.tcp != Closed && Sound(h, first, c, q) && ValidMessage(m)
    ensures Sound(Remember(h, m, now, env), first, Dispatch(c, m, now, env), q)
  {
    hide CoreOk, HistOk, Dispatch, Expected, RememberBegin, RememberChunk, RememberEnd;
    RememberGrows(h, m, now, env);
    if m.kind == PUT_BEGIN {
      RouteBegin(c, m, now, env);
      BeginFiles(h, c, m.reqId, m.payload, now, env, q);
    } else if m.kind == PUT_CHUNK {
      RouteChunk(c, m, now, env);
      ChunkFiles(h, c, m.reqId, m.payload, now, env, q);
    } else if m.kind == PUT_END {
      RouteEnd(c, m, now, env);
      EndHist(h, c, m.reqId, now, env);
      if !h.huge && q !in h.temps {
        EndFiles(h, c, m.reqId, now, env, first, q);
      }
    } else {
      OtherFiles(c, m, now, env);
      DispatchLeaves(c, m, now, env);
      SameHist(h, c, Dispatch(c, m, now, env));
    }
  }

  /** Temporary names and the mark for huge uploads stay; only PUT_END has effects. */
  lemma RememberGrows(h: Hist, m: Message, now: nat, env: Env)
    ensures var g := Remember(h, m, now, env);
            && h.temps <= g.temps && (h.huge ==> g.huge)
            && (m.kind == PUT_BEGIN || m.kind == PUT_CHUNK ==> g.effects == h.effects)
            && (m.kind == PUT_END ==> g.temps == h.temps && g.huge == h.huge)
  {
    hide Kv.Copy, Kv.CopyU64, Kv.CopyU64Or, PATH, SIZE, OVERWRITE, ONE, CHUNK_SIZE, Part, BeginReply;
  }

  lemma SameHist(h: Hist, c: Core, r: Core)
    requires HistOk(h, c) && r.upload == c.upload && r.fs == c.fs && r.link.lastRx == c.link.lastRx
    ensures HistOk(h, r)
  {
  }

  lemma RouteBegin(c: Core, m: Message, now: nat, env: Env)
    requires m.kind == PUT_BEGIN
    ensures Dispatch(c, m, now, env) == PutBegin(c, m.reqId, m.payload, now, env)
  {
    hide PutBegin;
  }

  lemma RouteChunk(c: Core, m: Message, now: nat, env: Env)
    requires m.kind == PUT_CHUNK
    ensures Dispatch(c, m, now, env) == PutChunk(c, m.reqId, m.payload, now, env)
  {
    hide PutChunk;
  }

  lemma RouteEnd(c: Core, m: Message, now: nat, env: Env)
    requires m.kind == PUT_END
    ensures Dispatch(c, m, now, env) == PutEnd(c, m.reqId, now, env)
  {
    hide PutEnd;
  }

  // ---- Whole runs ----

  function RememberAll(h: Hist, ms: seq<Message>, now: nat, env: Oracle, frames: nat): Hist
    decreases |ms|
  {
    if ms == [] then h
    else RememberAll(Remember(h, ms[0], now, env(frames)), ms[1..], now, env, frames + 1)
  }

  lemma {:induction false} MessagesSound(h: Hist, first: Option<bytes>, c: Core, ms: seq<Message>,
                                         now: nat, env: Oracle, q: bytes)
    requires CoreOk(c, now) && c.link.tcp != Closed && Sound(h, first, c, q)
    requires forall m <- ms :: ValidMessage(m)
    ensures Sound(RememberAll(h, ms, now, env, c.framesRx), first, ReceiveAll(c, ms, now, env), q)
    decreases |ms|
  {
    hide LinkOk, ProcOk, UploadOk, Dispatch, Expected, HistOk, Remember;
    if ms != [] {
      var m := ms[0];
      var counted := c.(framesRx := c.framesRx + 1, bytesRx := c.bytesRx + WireSize(m));
      SameHist(h, c, counted);
      DispatchKeeps(counted, m, now, env(c.framesRx));
      DispatchLeaves(counted, m, now, env(c.framesRx));
      MessageSound(h, first, counted, m, now, env(c.framesRx), q);
      MessagesSound(Remember(h, m, now, env(c.framesRx)), first, Receive(c, m, now, env), ms[1..], now, env, q);
    }
  }

  /** The history after one event: the frames that a read completes, or what a callback ends. */
  function Observe(h: Hist, w: World, now: nat, e: Event): Hist {
    if e.ReadBytes? then
      var heard := h.(heard := now);
      if |w.rx| + |e.chunk| > RX_CAP then heard
      else RememberAll(heard, Parse(w.rx + e.chunk).messages, now, e.oracle, w.core.framesRx)
    else RememberCallback(h, w.core.link, now, e)
  }

  ghost function ObserveAll(h: Hist, w: World, run: seq<Timed>): Hist
    decreases |run|
  {
    if run == [] then h
    else ObserveAll(Observe(h, w, run[0].at, run[0].event), Step(w, run[0].at, run[0].event), run[1..])
  }

  lemma CallbackFiles(c: Core, now: nat, e: Event, q: bytes)
    requires CoreOk(c, now) && (c.upload.active ==> c.upload.tmp != Some(q))
    ensures At(Callback(c, now, e).fs, q) == At(c.fs, q)
  {
    hide Send, LinkOk, ProcOk, BeginReply, Part, CheckProc, MaybeFinalize, ExitReply, ErrorText, ProcAbort,
         Elapsed, PipeKind, CloseLink, PingText;
  }

  /** The stall check of a tick, in terms of what was observed. */
  lemma TickSlot(h: Hist, c: Core, now: nat, env: Env)
    requires CoreOk(c, now) && HistOk(h, c) && now < TWO_64
    ensures var g, r := RememberCallback(h, c.link, now, HeartbeatTick(env)), Tick(c, now, env);
            HistOk(g, r) && (g == h ==> r.upload == c.upload && r.fs == c.fs)
  {
    hide Send, SendError, ProcOk, BeginReply, Part, CheckProc, PingText, CloseLink, Final, Whole, Abort, Elapsed;
    TickLeaves(c, now, env);
    ElapsedExact(now, c.link.lastRx);
    if c.upload.active {
      ElapsedExact(now, c.upload.progress);
    }
  }

  lemma ReleaseSlot(h: Hist, c: Core, env: Env)
    requires HistOk(h, c) && c.download == IDLE
    ensures HistOk(if c.link.closeRefs <= 1 then h.(job := None) else h, Release(c, env))
  {
    hide Abort, ProcAbort, Final, Whole, Part;
    NothingToAbort(Abort(c.fs, c.upload, env), env);
  }

  lemma CallbackHist(h: Hist, c: Core, now: nat, e: Event)
    requires CoreOk(c, now) && HistOk(h, c) && now < TWO_64 && !e.ReadBytes?
    ensures HistOk(RememberCallback(h, c.link, now, e), Callback(c, now, e))
  {
    hide LinkOk, ProcOk, UploadOk, HistOk, Tick, Release, MaybeFinalize, ExitReply, PipeKind, Send, Overdue;
    match e
    case HeartbeatTick(env) => TickSlot(h, c, now, env);
    case TimerHandleClosed(env) =>
      var d := c.(link := c.link.(timer := Closed));
      SameHist(h, c, d);
      ReleaseSlot(h, d, env);
    case TcpHandleClosed(env) =>
      var d := c.(link := c.link.(tcp := Closed));
      SameHist(h, c, d);
      ReleaseSlot(h, d, env);
    case ProcessHandleClosed(env) =>
      var d := c.(proc := c.proc.(process := Closed));
      SameHist(h, c, d);
      ReleaseSlot(h, d, env);
    case PipeHandleClosed(which, env) =>
      var d := c.(proc := WithPipeClosed(c.proc, which));
      SameHist(h, c, d);
      ReleaseSlot(h, d, env);
    case _ =>
      CallbackLeaves(c, now, e);
      SameHist(h, c, Callback(c, now, e));
  }

  lemma StepSound(h: Hist, first: Option<bytes>, w: World, now: nat, e: Event, q: bytes)
    requires WorldOk(w) && w.clock <= now < TWO_64 && Enabled(w, e) && Sound(h, first, w.core, q)
    ensures Sound(Observe(h, w, now, e), first, Step(w, now, e).core, q)
  {
    hide LinkOk, ProcOk, UploadOk, First, Parse, ReceiveAll, RememberAll, CloseLink, Callback, HistOk, Expected,
         Overdue;
    Later(w.core, w.clock, now);
    var c := w.core;
    if e.ReadBytes? {
      ReadSound(h, first, w, now, e.chunk, e.oracle, q);
    } else {
      CallbackHist(h, c, now, e);
      if q !in h.temps {
        TempInTemps(h, c);
        CallbackFiles(c, now, e, q);
      }
    }
  }

  lemma ReadSound(h: Hist, first: Option<bytes>, w: World, now: nat, chunk: bytes, env: Oracle, q: bytes)
    requires CoreOk(w.core, now) && w.core.link.tcp == Open && Sound(h, first, w.core, q)
    ensures var e := ReadBytes(chunk, env);
            Sound(Observe(h, w, now, e), first, Step(w, now, e).core, q)
  {
    hide LinkOk, ProcOk, UploadOk, Parse, ReceiveAll, RememberAll, CloseLink, HistOk, Expected;
    var c1 := w.core.(link := w.core.link.(lastRx := now));
    var heard := h.(heard := now);
    HeardHist(h, w.core, now);
    HeardKeeps(w.core.link, w.core.proc, now);
    ClosedHeard(c1.link);
    SameHist(heard, c1, c1.(link := CloseLink(c1.link)));
    var ms := Parse(w.rx + chunk).messages;
    ParseValid(w.rx + chunk);
    MessagesSound(heard, first, c1, ms, now, env, q);
    var g, r := RememberAll(heard, ms, now, env, c1.framesRx), ReceiveAll(c1, ms, now, env);
    ClosedHeard(r.link);
    SameHist(g, r, r.(link := CloseLink(r.link)));
  }

  lemma HeardHist(h: Hist, c: Core, now: nat)
    requires HistOk(h, c)
    ensures HistOk(h.(heard := now), c.(link := c.link.(lastRx := now)))
  {
    hide Final, Whole, Part;
  }

  lemma ClosedHeard(l: Link)
    ensures CloseLink(l).lastRx == l.lastRx
  {
  }

  lemma TempInTemps(h: Hist, c: Core)
    requires HistOk(h, c)
    ensures c.upload.active ==> c.upload.tmp.Some? && c.upload.tmp.value in h.temps
  {
    hide Final, Whole;
  }

  lemma {:induction false} RunSound(h: Hist, first: Option<bytes>, w: World, run: seq<Timed>, q: bytes)
    requires WorldOk(w) && ValidRun(w, run) && Sound(h, first, w.core, q)
    ensures Sound(ObserveAll(h, w, run), first, RunAll(w, run).core, q)
    decreases |run|
  {
    hide WorldOk, Step, Enabled, Observe, Sound;
    if run != [] {
      StepKeeps(w, run[0].at, run[0].event);
      StepSound(h, first, w, run[0].at, run[0].event, q);
      RunSound(Observe(h, w, run[0].at, run[0].event), first, Step(w, run[0].at, run[0].event), run[1..], q);
    }
  }

  ghost function Observed(now: nat, disk: map<bytes, bytes>, run: seq<Timed>): Hist {
    ObserveAll(NoHist(now), Start(now, disk), run)
  }

  lemma RunHist(now: nat, disk: map<bytes, bytes>, run: seq<Timed>, q: bytes)
    requires ValidRun(Start(now, disk), run)
    ensures Sound(Observed(now, disk, run), At(Fs(disk, map[], 0), q), RunAll(Start(now, disk), run).core, q)
  {
    hide WorldOk, ValidRun, RunAll, ObserveAll, Sound;
    StartOk(now, disk);
    StartSound(now, disk, q);
    RunSound(NoHist(now), At(Fs(disk, map[], 0), q), Start(now, disk), run, q);
  }

  /** From any disk, after any run in which no upload declares 2^63 bytes or more: every path that was
      never the temporary name of an upload (so every path that does not end in ".part") holds
      exactly what the last effective PUT_END to it left there, all declared bytes of that upload or
      nothing, and what it held at the start if there was none. The temporary file of an upload in
      progress holds exactly what was received. */
  lemma NeverPartial(now: nat, disk: map<bytes, bytes>, run: seq<Timed>, q: bytes)
    requires ValidRun(Start(now, disk), run)
    ensures var h, w := Observed(now, disk, run), RunAll(Start(now, disk), run);
            && (Final(q) ==> q !in h.temps)
            && (!h.huge ==>
                  && (q !in h.temps ==> At(w.core.fs, q) == Expected(h.effects, At(Fs(disk, map[], 0), q), q))
                  && (forall e <- h.effects :: e.Stored? ==> |e.data| == e.size)
                  && (h.job.Some? ==> At(w.core.fs, Part(h.job.value.path)) == Some(h.job.value.received)))
  {
    hide WorldOk, Final, Expected, ValidRun, RunAll, Observed;
    RunHist(now, disk, run, q);
    var h, w := Observed(now, disk, run), RunAll(Start(now, disk), run);
    assert HistOk(h, w.core);
    if !h.huge {
      assert forall i :: 0 <= i < |h.effects| ==> Whole(h.effects[i]);
    }
  }

  /** After any run the upload slot is the one of the observed upload, field by field: the request and
      its parameters, the number of bytes accepted, and the time at which its PUT_BEGIN or its last
      chunk was accepted; it is idle if there is none. */
  lemma UploadRefines(now: nat, disk: map<bytes, bytes>, run: seq<Timed>)
    requires ValidRun(Start(now, disk), run)
    ensures var h, w := Observed(now, disk, run), RunAll(Start(now, disk), run);
            w.core.upload == SlotFor(h.job) && w.core.link.lastRx == h.heard
  {
    hide WorldOk, ValidRun, RunAll, Observed, Final, Whole, Part;
    RunHist(now, disk, run, []);
  }

  /** The stall check, after any run that leaves the session open: a tick aborts the upload if and only
      if the session has heard something within 15 s and no PUT_BEGIN or chunk of the upload was
      accepted for 20 s (a time of zero counting as none); and then it had received bytes more than 5 s
      after that last progress. */
  lemma StallExactly(now: nat, disk: map<bytes, bytes>, run: seq<Timed>, at: nat, env: Env)
    requires ValidRun(Start(now, disk), run)
    requires var w := RunAll(Start(now, disk), run); !w.core.link.closed && w.clock <= at < TWO_64
    ensures var h, w := Observed(now, disk, run), RunAll(Start(now, disk), run);
            var s := Step(w, at, HeartbeatTick(env));
            && (s.core.upload != w.core.upload <==> at < h.heard + SESSION_IDLE_MS && Overdue(h, at))
            && s.core.upload == (if at < h.heard + SESSION_IDLE_MS && Overdue(h, at) then IDLE else w.core.upload)
            && (s.core.upload != w.core.upload ==> h.heard > h.job.value.at + HEARTBEAT_IDLE_MS)
  {
    hide WorldOk, ValidRun, RunAll, Observed, Final, Whole, Part, Tick, UploadOk, ProcOk, LinkOk;
    RunHist(now, disk, run, []);
    var h, w := Observed(now, disk, run), RunAll(Start(now, disk), run);
    assert Reachable(w);
    ReachableOk(w);
    WorldLater(w, at);
    TickSlot(h, w.core, at, env);
  }

  lemma WorldLater(w: World, at: nat)
    requires WorldOk(w) && w.clock <= at
    ensures CoreOk(w.core, at)
  {
    hide First, LinkOk, ProcOk, UploadOk;
    Later(w.core, w.clock, at);
  }

  lemma StartSound(now: nat, disk: map<bytes, bytes>, q: bytes)
    ensures Sound(NoHist(now), At(Fs(disk, map[], 0), q), Start(now, disk).core, q)
  {
  }
}
