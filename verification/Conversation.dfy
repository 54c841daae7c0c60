/** The frames on the wire over whole runs: answers to requests, the frames of a child and of the heartbeat,
    and what the client gets from them. */
module Conversation {
  import opened Bytes
  import opened Frame
  import opened Stream
  import opened SessionState
  import opened Transfers
  import opened Procs
  import opened Protocol
  import opened Server
  import opened Lifetime
  import opened Invariants
  import opened Runs
  import opened Argv
  import opened Client
  import opened Destination
  import opened Kids
  import opened Replies
  import Download
  import EndToEnd
  import Pipes
  import Matching
  import Kv
  import KvLaws

  // ---- What is handed to the socket ----

  /** The session is open, the frame fits the queue, and uv_write takes it. */
  predicate Takes(l: Link, m: Message, env: Env) {
    !l.closed && ValidMessage(m) && l.pending + WireSize(m) <= MAX_WRITE_QUEUE && env.writes(l.framesTx)
  }

  lemma SendTakes(l: Link, m: Message, now: nat, env: Env)
    ensures var r := SendEach(l, [m], now, env);
            && (Takes(l, m, env) ==> r.inflight == l.inflight + [EncodeMessage(m)] && !r.closed)
            && (!Takes(l, m, env) ==> r.inflight == l.inflight)
  {
    hide EncodeMessage;
    SendOne(l, m, now, env);
  }

  // ---- The child's frames ----

  /** Output of a running child, at any reachable moment without an overlapping spawn: one STDOUT or
      STDERR frame with the id of the run and exactly the bytes, and an entry in its history. */
  lemma OutputFrame(w: World, which: Pipe, data: bytes, now: nat, env: Env)
    requires Reachable(w) && !w.core.proc.overlapped && Enabled(w, ChildOutput(which, data, env))
    ensures var run := Trace(w.core.proc.log);
            && run.Some? && run.value.Running?
            && var id, s := run.value.child.id, Step(w, now, ChildOutput(which, data, env)).core;
               var m := Message(if which == Out then 42 else 43, id, data);
               && s.proc.log == w.core.proc.log + [Output(id, which, now)]
               && s.link == SendEach(w.core.link, [m], now, env)
               && (Takes(w.core.link, m, env) ==> s.link.inflight == w.core.link.inflight + [EncodeMessage(m)])
  {
    hide Reachable, LinkOk, UploadOk, First, Send, SendEach, Trace, EncodeMessage;
    ReachableOk(w);
    var p := w.core.proc;
    var m := Message(PipeKind(which), p.procId, data);
    SendOne(w.core.link, m, now, env);
    SendTakes(w.core.link, m, now, env);
  }

  lemma EndNames(r: KillReason)
    ensures EndName(r) == Ascii("exit") <==> r == NoKill
    ensures |EndName(r)| <= 12
  {
    assert EndName(Requested)[0] == 107 && Ascii("exit")[0] == 101 && EndName(Timeout)[0] == 116;
    assert EndName(Idle)[0] == 105;
  }

  lemma ExitFits(id: u32, code: int, r: KillReason)
    requires -TWO_63 <= code < TWO_63
    ensures |ExitReply(id, code, r)| < REPLY_CAP
  {
    hide Decimal, ReasonName, Signed;
    ExitNames(code, r);
    EndNames(r);
    DecimalU64Fits(id);
    DecimalU64Fits(if code < 0 then -code else code);
  }

  /** The exit of a child, with any 64-bit code: one EXIT frame with the id of the run, the code, and the
      reason that its history gives, which is "exit" if and only if no kill was tried. */
  lemma ExitFrame(w: World, code: int, now: nat, env: Env)
    requires Reachable(w) && !w.core.proc.overlapped && Enabled(w, ChildExited(code, env))
    requires -TWO_63 <= code < TWO_63
    ensures var run := Trace(w.core.proc.log);
            && run.Some? && run.value.Running? && !run.value.exited
            && var id, kill, s := run.value.child.id, run.value.kill, Step(w, now, ChildExited(code, env)).core;
               var m := Message(44, id, OkText(ExitItems(id, code, kill)));
               && w.core.proc.log + [ExitSent(id, kill)] <= s.proc.log
               && s.link == SendEach(w.core.link, [m], now, env)
               && (Takes(w.core.link, m, env) ==> s.link.inflight == w.core.link.inflight + [EncodeMessage(m)])
               && (EndName(kill) == Ascii("exit") <==> kill == NoKill)
  {
    hide Reachable, LinkOk, UploadOk, First, Send, SendEach, Trace, EncodeMessage, ExitReply, OkText, ExitItems, EndName,
         Ascii;
    ReachableOk(w);
    var p := w.core.proc;
    ExitFits(p.procId, code, p.kill);
    ExitText(p.procId, code, p.kill);
    EndNames(p.kill);
    var m := Message(EXIT, p.procId, ExitReply(p.procId, code, p.kill));
    SendOne(w.core.link, m, now, env);
    SendTakes(w.core.link, m, now, env);
  }

  // ---- The heartbeat ----

  function PingFrame(id: u32): Message {
    Message(PING, id, EncodeKv([(Ascii("status"), Ascii("ping"))]))
  }

  /** The ERROR for an upload without progress for 20 s. */
  function StallFrames(h: Hist, now: nat): seq<Message> {
    if Overdue(h, now) then Refusal(h.job.value.reqId, Ascii("timeout"), Ascii("transfer stalled")) else []
  }

  /** A PING after 5 s without a send, and the ERROR of a stalled upload. */
  function TickFrames(h: Hist, l: Link, id: u32, now: nat): seq<Message> {
    (if now >= l.lastTx + HEARTBEAT_IDLE_MS then [PingFrame(id)] else []) + StallFrames(h, now)
  }

  lemma PingSends(c: Core, now: nat, env: Env)
    requires c.link.lastTx <= now < TWO_64
    ensures var due, r := now >= c.link.lastTx + HEARTBEAT_IDLE_MS, TickPing(c, now, env);
            r == c.(link := SendEach(c.link, if due then [PingFrame(c.nextReqId)] else [], now, env),
                    nextReqId := if due then Succ(c.nextReqId) else c.nextReqId)
  {
    hide Send, SendEach, EncodeKv, Ascii, Elapsed;
    ElapsedExact(now, c.link.lastTx);
    StatusText();
    SendNone(c.link, now, env);
    SendOne(c.link, Message(PING, c.nextReqId, PingText()), now, env);
  }

  lemma StallSends(h: Hist, c: Core, now: nat, env: Env)
    requires c.upload == SlotFor(h.job) && c.download == IDLE && (h.job.Some? ==> h.job.value.at <= now) && now < TWO_64
    ensures var r := CheckDownload(CheckUpload(c, now, env), now, env);
            && r.link == SendEach(c.link, StallFrames(h, now), now, env) && r.nextReqId == c.nextReqId
            && r.tally == if Overdue(h, now) then Aborted(c.tally) else c.tally
  {
    hide SendError, SendEach, Refusal, Ascii, Elapsed, Abort, Part;
    SendNone(c.link, now, env);
    if h.job.Some? {
      ElapsedExact(now, h.job.value.at);
      SendRefusal(c.link, h.job.value.reqId, Stalled, now, env);
    }
  }

  /** The frames of a tick that finds the session open and not silent for 15 s. */
  lemma TickSends(h: Hist, c: Core, now: nat, env: Env)
    requires CoreOk(c, now) && HistOk(h, c) && !c.link.closed && now < TWO_64 && now < c.link.lastRx + SESSION_IDLE_MS
    ensures var r := Tick(c, now, env);
            && r.link == SendEach(c.link, TickFrames(h, c.link, c.nextReqId, now), now, env).(tickAt := now)
            && r.nextReqId == (if now >= c.link.lastTx + HEARTBEAT_IDLE_MS then Succ(c.nextReqId) else c.nextReqId)
            && r.tally == if Overdue(h, now) then Aborted(c.tally) else c.tally
  {
    hide Send, SendEach, PingFrame, StallFrames, Ascii, Elapsed, ProcOk, CheckProc, CheckUpload, CheckDownload, TickPing,
         BeginReply, Part, Overdue, Final, Whole;
    ElapsedExact(now, c.link.lastRx);
    PingSends(c, now, env);
    var c1 := TickPing(c, now, env);
    StallSends(h, c1, now, env);
    var ping := if now >= c.link.lastTx + HEARTBEAT_IDLE_MS then [PingFrame(c.nextReqId)] else [];
    SendThen(c.link, ping, StallFrames(h, now), now, env);
  }

  /** The heartbeat after any run that leaves the session open: if nothing was heard for 15 s the session
      is closed and nothing else happens. Otherwise a PING with the next id is sent if and only if
      nothing was sent for 5 s, and the ERROR of a stalled upload if and only if there is one, which is
      then counted as aborted. */
  lemma HeartbeatExactly(now: nat, disk: map<bytes, bytes>, run: seq<Timed>, at: nat, env: Env)
    requires ValidRun(Start(now, disk), run)
    requires var w := RunAll(Start(now, disk), run); !w.core.link.closed && w.clock <= at < TWO_64
    ensures var h, w := Observed(now, disk, run), RunAll(Start(now, disk), run);
            var c, s := w.core, Step(w, at, HeartbeatTick(env)).core;
            if at >= h.heard + SESSION_IDLE_MS then s == c.(link := CloseLink(c.link))
            else
              && s.link == SendEach(c.link, TickFrames(h, c.link, c.nextReqId, at), at, env).(tickAt := at)
              && s.nextReqId == (if at >= c.link.lastTx + HEARTBEAT_IDLE_MS then Succ(c.nextReqId) else c.nextReqId)
              && s.tally == if Overdue(h, at) then Aborted(c.tally) else c.tally
  {
    hide WorldOk, ValidRun, RunAll, Observed, Final, Whole, Part, TickPing, CheckUpload, CheckDownload, CheckProc,
         SendEach, TickFrames, Overdue, Elapsed;
    RunHist(now, disk, run, []);
    var h, w := Observed(now, disk, run), RunAll(Start(now, disk), run);
    assert Reachable(w);
    ReachableOk(w);
    WorldLater(w, at);
    LinkStamps(w.core.link, w.core.proc, at);
    ElapsedExact(at, w.core.link.lastRx);
    if at < h.heard + SESSION_IDLE_MS {
      TickSends(h, w.core, at, env);
    }
  }

  /** When the frames of a tick close the session: the PING does not fit, or the ERROR after it. */
  predicate TickOverruns(h: Hist, l: Link, now: nat, env: Env) {
    var due := now >= l.lastTx + HEARTBEAT_IDLE_MS;
    var pinged := l.pending + if due && env.writes(l.framesTx) then 25 else 0;
    || (due && l.pending + 25 > MAX_WRITE_QUEUE)
    || (StallFrames(h, now) != [] && pinged + WireSize(StallFrames(h, now)[0]) > MAX_WRITE_QUEUE)
  }

  lemma PingSize(id: u32)
    ensures ValidMessage(PingFrame(id)) && WireSize(PingFrame(id)) == 25
  {
    StatusText();
  }

  lemma RefusalValid(reqId: u32, code: bytes, text: bytes)
    ensures var e := Refusal(reqId, code, text); |e| <= 1 && (e != [] ==> ValidMessage(e[0]) && e[0].kind == ERROR)
  {
    hide EncodeKv, Ascii;
  }

  lemma StallValid(h: Hist, now: nat)
    ensures var e := StallFrames(h, now); |e| <= 1 && (e != [] ==> ValidMessage(e[0]))
  {
    hide Refusal, Ascii;
    if Overdue(h, now) {
      RefusalValid(h.job.value.reqId, Ascii("timeout"), Ascii("transfer stalled"));
    }
  }

  lemma SendCloses(l: Link, m: Message, now: nat, env: Env)
    requires ValidMessage(m) && !l.closed
    ensures var r, over := Send(l, m, now, env).0, l.pending + WireSize(m) > MAX_WRITE_QUEUE;
            && (r.closed <==> over)
            && (!over ==> r.pending == l.pending + if env.writes(l.framesTx) then WireSize(m) else 0)
  {
    hide EncodeMessage;
  }

  lemma {:induction false} ClosedSends(l: Link, ms: seq<Message>, now: nat, env: Env)
    requires l.closed
    ensures SendEach(l, ms, now, env) == l
    decreases |ms|
  {
    if ms != [] {
      ClosedSends(l, ms[1..], now, env);
    }
  }

  lemma TickFramesClose(h: Hist, l: Link, id: u32, now: nat, env: Env)
    requires !l.closed
    ensures SendEach(l, TickFrames(h, l, id, now), now, env).closed <==> TickOverruns(h, l, now, env)
  {
    hide Send, SendEach, PingFrame, StallFrames;
    var due := now >= l.lastTx + HEARTBEAT_IDLE_MS;
    var m := PingFrame(id);
    PingSize(id);
    var ping := if due then [m] else [];
    var l1 := SendEach(l, ping, now, env);
    SendNone(l, now, env);
    SendOne(l, m, now, env);
    SendCloses(l, m, now, env);
    var stall := StallFrames(h, now);
    StallValid(h, now);
    SendThen(l, ping, stall, now, env);
    SendNone(l1, now, env);
    if l1.closed {
      ClosedSends(l1, stall, now, env);
    } else if stall != [] {
      assert stall == [stall[0]];
      SendOne(l1, stall[0], now, env);
      SendCloses(l1, stall[0], now, env);
    }
  }

  /** A tick closes an open session if and only if nothing was heard for 15 s, or its frames overrun the
      queue. */
  lemma TickCloses(now: nat, disk: map<bytes, bytes>, run: seq<Timed>, at: nat, env: Env)
    requires ValidRun(Start(now, disk), run)
    requires var w := RunAll(Start(now, disk), run); !w.core.link.closed && w.clock <= at < TWO_64
    ensures var h, w := Observed(now, disk, run), RunAll(Start(now, disk), run);
            Step(w, at, HeartbeatTick(env)).core.link.closed
            <==> at >= h.heard + SESSION_IDLE_MS || TickOverruns(h, w.core.link, at, env)
  {
    hide ValidRun, RunAll, Observed, SendEach, TickFrames, Overdue, TickOverruns, Step;
    HeartbeatExactly(now, disk, run, at, env);
    var h, w := Observed(now, disk, run), RunAll(Start(now, disk), run);
    TickFramesClose(h, w.core.link, w.core.nextReqId, at, env);
  }

  // ---- Answers over whole runs ----

  /** The state in which a frame that is read on its own is routed. */
  function Routing(w: World, m: Message, at: nat): Core {
    w.core.(link := w.core.link.(lastRx := at), framesRx := w.core.framesRx + 1,
            bytesRx := w.core.bytesRx + WireSize(m))
  }

  lemma RoutedOk(now: nat, disk: map<bytes, bytes>, run: seq<Timed>, m: Message, at: nat)
    requires ValidRun(Start(now, disk), run)
    requires var w := RunAll(Start(now, disk), run); !w.core.link.closed && w.clock <= at < TWO_64
    ensures var w := RunAll(Start(now, disk), run);
            && CoreOk(Routing(w, m, at), at) && w.core.link.tcp == Open
            && HistOk(Observed(now, disk, run).(heard := at), Routing(w, m, at))
            && KidOk(Seen(now, disk, run), Routing(w, m, at))
  {
    hide WorldOk, ValidRun, RunAll, Observed, SeeAll, HistOk, LinkOk, ProcOk, UploadOk, PhaseOf, NthId;
    var w := RunAll(Start(now, disk), run);
    RunHist(now, disk, run, []);
    StartOk(now, disk);
    StartSeen(now, disk);
    RunSeen(NO_KID, Start(now, disk), run);
    assert Reachable(w);
    ReachableOk(w);
    WorldLater(w, at);
    HeardKeeps(w.core.link, w.core.proc, at);
    OpenSocket(w.core, at);
    HeardHist(Observed(now, disk, run), w.core, at);
    SameHist(Observed(now, disk, run).(heard := at), w.core.(link := w.core.link.(lastRx := at)), Routing(w, m, at));
  }

  lemma OpenSocket(c: Core, now: nat)
    requires CoreOk(c, now) && !c.link.closed
    ensures c.link.tcp == Open
  {
    hide ProcOk, UploadOk;
  }

  lemma AnswerTimeless(h: Hist, k: Kid, m: Message, at: nat, now: nat, env: Env)
    ensures Answer(h.(heard := at), k, m, now, env) == Answer(h, k, m, now, env)
  {
    hide Refusal, OkText, Ascii, Kv.Copy, Kv.CopyU64, PATH, SIZE, LuaAnswer, SpawnAnswer, KillAnswer;
  }

  /** After any run that leaves the session open and between frames, without an overlapping spawn: a read
      of one frame (but GET_BEGIN) sends exactly the answer that the observer expects. */
  lemma AnsweredOnWire(now: nat, disk: map<bytes, bytes>, run: seq<Timed>, m: Message, at: nat, env: Oracle)
    requires ValidRun(Start(now, disk), run) && ValidMessage(m) && WireSize(m) <= READ_CHUNK && m.kind != GET_BEGIN
    requires var w := RunAll(Start(now, disk), run);
             && !w.core.link.closed && w.rx == [] && w.clock <= at < TWO_64 && !w.core.proc.overlapped
             && !Step(w, at, ReadBytes(EncodeMessage(m), env)).core.proc.overlapped
    ensures var w := RunAll(Start(now, disk), run);
            var c, answer := w.core, env(w.core.framesRx);
            var ms := Answer(Observed(now, disk, run), Seen(now, disk, run), m, at, answer);
            var s := Step(w, at, ReadBytes(EncodeMessage(m), env));
            && s.rx == []
            && Wired(SendEach(c.link.(lastRx := at), ms, at, answer), s.core.link)
            && (|ms| == 1 && Takes(c.link, ms[0], answer) ==>
                  s.core.link.inflight == c.link.inflight + [EncodeMessage(ms[0])])
  {
    hide ValidRun, RunAll, Observed, SeeAll, HistOk, KidOk, CoreOk, Dispatch, Answer, SendEach, EncodeMessage, Step, Seen;
    var w := RunAll(Start(now, disk), run);
    var h, k, answer := Observed(now, disk, run), Seen(now, disk, run), env(w.core.framesRx);
    RoutedOk(now, disk, run, m, at);
    ReadFrame(w, m, at, env);
    FrameAnswered(h.(heard := at), k, Routing(w, m, at), m, at, answer);
    AnswerTimeless(h, k, m, at, at, answer);
    var ms := Answer(h, k, m, at, answer);
    if |ms| == 1 {
      assert ms == [ms[0]];
      SendTakes(w.core.link.(lastRx := at), ms[0], at, answer);
    }
  }

  // ---- The client's side ----

  /** A reply, as the client's reader sorts it. */
  predicate IsReply(m: Message) {
    m.kind != PING && !IsStream(m.kind)
  }

  /** A frame behind those in flight is the last the client parses: a reply becomes the latest reply to
      its request, and a ping the last one to be answered. */
  lemma LastHeard(l: Link, r: Link, m: Message)
    requires forall i :: 0 <= i < |l.inflight| ==> IsFrame(l.inflight[i])
    requires ValidMessage(m) && r.inflight == l.inflight + [EncodeMessage(m)]
    ensures var seen := Parse(Concat(r.inflight));
            && seen == Parsed(Download.InFlight(l) + [m], [], false)
            && (IsReply(m) ==> ReplyTo(seen.messages, m.reqId) == Some(m))
            && (m.kind == PING ==> Pings(seen.messages) == Pings(Download.InFlight(l)) + [m.reqId])
  {
    hide EncodeMessage, Parse, IsFrame, Download.InFlight;
    Download.InFlightEncoded(l);
    Download.QueuedOne(l, r, m);
    var earlier := Download.InFlight(l);
    Download.QueuedSeen(l, r, earlier, [m]);
    assert (earlier + [m])[..|earlier|] == earlier;
  }

  lemma FramesInFlight(c: Core, now: nat)
    requires CoreOk(c, now)
    ensures forall i :: 0 <= i < |c.link.inflight| ==> IsFrame(c.link.inflight[i])
  {
    hide ProcOk, UploadOk, IsFrame;
  }

  /** A request whose answer is one reply that the queue takes: the client finds it under its id. */
  lemma ClientGetsAnswer(now: nat, disk: map<bytes, bytes>, run: seq<Timed>, m: Message, at: nat, env: Oracle)
    requires ValidRun(Start(now, disk), run) && ValidMessage(m) && WireSize(m) <= READ_CHUNK && m.kind != GET_BEGIN
    requires var w := RunAll(Start(now, disk), run);
             && !w.core.link.closed && w.rx == [] && w.clock <= at < TWO_64 && !w.core.proc.overlapped
             && !Step(w, at, ReadBytes(EncodeMessage(m), env)).core.proc.overlapped
    ensures var w := RunAll(Start(now, disk), run);
            var ms := Answer(Observed(now, disk, run), Seen(now, disk, run), m, at, env(w.core.framesRx));
            var s := Step(w, at, ReadBytes(EncodeMessage(m), env));
            |ms| == 1 && IsReply(ms[0]) && Takes(w.core.link, ms[0], env(w.core.framesRx)) ==>
              ReplyTo(Parse(Concat(s.core.link.inflight)).messages, ms[0].reqId) == Some(ms[0])
  {
    hide ValidRun, RunAll, Observed, Seen, HistOk, KidOk, CoreOk, Answer, SendEach, EncodeMessage, Step, Parse, ReplyTo,
         IsFrame;
    AnsweredOnWire(now, disk, run, m, at, env);
    RoutedOk(now, disk, run, m, at);
    var w := RunAll(Start(now, disk), run);
    var ms := Answer(Observed(now, disk, run), Seen(now, disk, run), m, at, env(w.core.framesRx));
    FramesInFlight(Routing(w, m, at), at);
    if |ms| == 1 && Takes(w.core.link, ms[0], env(w.core.framesRx)) {
      LastHeard(w.core.link, Step(w, at, ReadBytes(EncodeMessage(m), env)).core.link, ms[0]);
    }
  }

  /** put_file's PUT_BEGIN, when no upload is in progress, the temporary file opens and the queue takes the
      reply: the client finds an ACK with its transfer id, path and size. */
  lemma BeginAcknowledged(now: nat, disk: map<bytes, bytes>, run: seq<Timed>, reqId: u32, path: bytes, data: bytes,
                          at: nat, env: Oracle)
    requires ValidRun(Start(now, disk), run) && EndToEnd.Uploadable(reqId, path, data)
    requires var w := RunAll(Start(now, disk), run);
             var ack := Message(ACK, reqId, OkText(BeginItems(reqId, path, |data|)));
             && !w.core.link.closed && w.rx == [] && w.clock <= at < TWO_64 && !w.core.proc.overlapped
             && Observed(now, disk, run).job.None?
             && env(w.core.framesRx).openOk && Takes(w.core.link, ack, env(w.core.framesRx))
    ensures var w := RunAll(Start(now, disk), run);
            var m := Message(PUT_BEGIN, reqId, EncodeKv(PutItems(path, |data|)));
            && ValidMessage(m)
            && ReplyTo(Parse(Concat(Step(w, at, ReadBytes(EncodeMessage(m), env)).core.link.inflight)).messages, reqId)
               == Some(Message(ACK, reqId, OkText(BeginItems(reqId, path, |data|))))
  {
    hide ValidRun, RunAll, Observed, Seen, HistOk, KidOk, CoreOk, SendEach, EncodeMessage, Step, Parse, ReplyTo, Takes,
         EncodeKv, PutItems, OkText, BeginItems, Kv.Copy, Kv.CopyU64, PATH, SIZE, BeginReply, Ascii, Refusal;
    var w := RunAll(Start(now, disk), run);
    var m := Message(PUT_BEGIN, reqId, EncodeKv(PutItems(path, |data|)));
    EndToEnd.BeginReadBack(reqId, path, data);
    EndToEnd.ReplyBounds(reqId, path, data);
    EndToEnd.BeginSize(path, |data|);
    BeginText(reqId, path, |data|);
    UploadLeavesChild(now, disk, run, m, at, env);
    ClientGetsAnswer(now, disk, run, m, at, env);
  }

  /** PUT_END of an upload whose bytes are all there, when close and rename succeed and the queue takes the
      reply: the client finds an ACK with the path and the number of bytes. */
  lemma EndAcknowledged(now: nat, disk: map<bytes, bytes>, run: seq<Timed>, at: nat, env: Oracle)
    requires ValidRun(Start(now, disk), run)
    requires var h, w := Observed(now, disk, run), RunAll(Start(now, disk), run);
             var answer := env(w.core.framesRx);
             && !w.core.link.closed && w.rx == [] && w.clock <= at < TWO_64 && !w.core.proc.overlapped
             && h.job.Some? && h.job.value.offset == h.job.value.size && answer.closeOk && answer.renameOk
             && var j := h.job.value;
                Takes(w.core.link, Message(ACK, j.reqId, OkText(EndItems(j.path, j.size))), answer)
    ensures var j, w := Observed(now, disk, run).job.value, RunAll(Start(now, disk), run);
            var m := Message(PUT_END, j.reqId, []);
            && ReplyTo(Parse(Concat(Step(w, at, ReadBytes(EncodeMessage(m), env)).core.link.inflight)).messages, j.reqId)
               == Some(Message(ACK, j.reqId, OkText(EndItems(j.path, j.size))))
  {
    hide ValidRun, RunAll, Observed, Seen, HistOk, KidOk, CoreOk, SendEach, EncodeMessage, Step, Parse, ReplyTo, Takes,
         OkText, EndItems, Ascii, Refusal;
    var j := Observed(now, disk, run).job.value;
    var m := Message(PUT_END, j.reqId, []);
    UploadLeavesChild(now, disk, run, m, at, env);
    ClientGetsAnswer(now, disk, run, m, at, env);
  }

  lemma UploadLeavesChild(now: nat, disk: map<bytes, bytes>, run: seq<Timed>, m: Message, at: nat, env: Oracle)
    requires ValidRun(Start(now, disk), run) && ValidMessage(m) && WireSize(m) <= READ_CHUNK
    requires m.kind == PUT_BEGIN || m.kind == PUT_END
    requires RunAll(Start(now, disk), run).rx == []
    ensures var w := RunAll(Start(now, disk), run);
            Step(w, at, ReadBytes(EncodeMessage(m), env)).core.proc == w.core.proc
  {
    hide ValidRun, RunAll, EncodeMessage, Step, Dispatch;
    var w := RunAll(Start(now, disk), run);
    ReadFrame(w, m, at, env);
    Pipes.PutLeavesProc(Routing(w, m, at), m, at, env(w.core.framesRx));
  }

  // ---- What the client reads in the replies ----

  lemma WordLegible(s: string)
    requires Word(s)
    ensures KvLaws.IsKey(Ascii(s)) && Printable(Ascii(s))
  {
  }

  lemma DecimalLegible(n: nat)
    ensures Printable(Decimal(n))
  {
  }

  predicate Has(payload: bytes, key: string, value: bytes) {
    Ascii(key) in ReplyFields(payload) && ReplyFields(payload)[Ascii(key)] == value
  }

  lemma BeginFields(reqId: u32, path: bytes, size: nat)
    requires Printable(path)
    ensures var text := BeginReply(reqId, path, size);
            && Has(text, "status", Ascii("ok")) && Has(text, "transfer_id", Decimal(reqId))
            && Has(text, "path", path) && Has(text, "size", Decimal(size))
  {
    hide ReplyFields, EncodeKv, Decimal, BeginReply;
    BeginText(reqId, path, size);
    var items := [StatusItem()] + BeginItems(reqId, path, size);
    WordLegible("status"); WordLegible("ok"); WordLegible("transfer_id"); WordLegible("path"); WordLegible("size");
    DecimalLegible(reqId);
    DecimalLegible(size);
    assert Ascii("path")[0] == 112 && Ascii("size")[0] == 115;
    ReadsBack(items, 0);
    ReadsBack(items, 1);
    ReadsBack(items, 2);
    ReadsBack(items, 3);
  }

  lemma EndFields(path: bytes, size: nat)
    requires Printable(path)
    ensures var text := EndReply(path, size);
            && Has(text, "status", Ascii("ok")) && Has(text, "path", path) && Has(text, "bytes", Decimal(size))
  {
    hide ReplyFields, EncodeKv, Decimal, EndReply;
    EndText(path, size);
    var items := [StatusItem()] + EndItems(path, size);
    WordLegible("status"); WordLegible("ok"); WordLegible("path"); WordLegible("bytes");
    DecimalLegible(size);
    ReadsBack(items, 0);
    ReadsBack(items, 1);
    ReadsBack(items, 2);
  }

  lemma SpawnedFields(id: u32, path: bytes)
    requires Printable(path)
    ensures var text := SpawnReply(id, path);
            && Has(text, "status", Ascii("ok")) && Has(text, "proc_id", Decimal(id)) && Has(text, "path", path)
  {
    hide ReplyFields, EncodeKv, Decimal, SpawnReply;
    SpawnedText(id, path);
    var items := [StatusItem()] + SpawnedItems(id, path);
    WordLegible("status"); WordLegible("ok"); WordLegible("proc_id"); WordLegible("path");
    DecimalLegible(id);
    ReadsBack(items, 0);
    ReadsBack(items, 1);
    ReadsBack(items, 2);
  }

  lemma ExitFields(id: u32, code: int, r: KillReason)
    ensures var text := ExitReply(id, code, r);
            && Has(text, "status", Ascii("ok")) && Has(text, "proc_id", Decimal(id))
            && Has(text, "exit_code", CodeText(code)) && Has(text, "reason", EndName(r))
  {
    hide ReplyFields, EncodeKv, Decimal, ExitReply;
    ExitText(id, code, r);
    var items := [StatusItem()] + ExitItems(id, code, r);
    WordLegible("status"); WordLegible("ok"); WordLegible("proc_id"); WordLegible("exit_code"); WordLegible("reason");
    WordLegible("exit"); WordLegible("killed"); WordLegible("timeout"); WordLegible("idle_timeout");
    DecimalLegible(id);
    DecimalLegible(if code < 0 then -code else code);
    assert Ascii("status")[0] == 115 && Ascii("reason")[0] == 114;
    ReadsBack(items, 0);
    ReadsBack(items, 1);
    ReadsBack(items, 2);
    ReadsBack(items, 3);
  }

  /** The client reads the code and the message of every error whose parts fit a line. */
  lemma ErrorFields(f: Failure, strerror: bytes)
    requires var p := ErrorParts(f, strerror); Printable(p.0) && Printable(p.1)
    ensures var p, text := ErrorParts(f, strerror), ErrorText(f, strerror);
            Has(text, "code", p.0) && Has(text, "message", p.1)
  {
    hide ReplyFields, EncodeKv, ErrorParts, ErrorText;
    ErrorIs(f, strerror);
    var p := ErrorParts(f, strerror);
    var items := [(Ascii("code"), p.0), (Ascii("message"), p.1)];
    WordLegible("code"); WordLegible("message");
    ReadsBack(items, 0);
    ReadsBack(items, 1);
  }

  // ---- What a PROC_SPAWN frame starts ----

  lemma SpawnTimes(path: bytes, timeoutMs: nat, idleTimeoutMs: nat, argv: seq<bytes>)
    requires Kv.Clean(path) && AllClean(argv)
    ensures var payload := SpawnPayload(path, timeoutMs, idleTimeoutMs, argv);
            && Kv.CopyU64Or(payload, TIMEOUT_MS(), 60000) == (if timeoutMs < TWO_64 then timeoutMs else 60000)
            && Kv.CopyU64Or(payload, IDLE_TIMEOUT_MS(), 10000) == (if idleTimeoutMs < TWO_64 then idleTimeoutMs else 10000)
  {
    hide EncodeKv, Kv.Lookup, Ascii, ParseU64;
    SpawnItemsEncodable(path, timeoutMs, idleTimeoutMs, argv);
    var items := SpawnItems(path, timeoutMs, idleTimeoutMs, argv);
    EncodedPresent(items, 1);
    EncodedPresent(items, 2);
    Download.DecimalRead(timeoutMs);
    Download.DecimalRead(idleTimeoutMs);
  }

  /** For every path, list and time limits whose request fits a frame, whatever bytes they hold, routed in
      any state of a session without a running child, when the child starts: it is started with exactly
      the path and arguments asked for if and only if they hold no CR, LF or NUL, the path has 1 to 511
      bytes, and the list is just the path, or two or more arguments of 1 to 511 bytes. And for plain text
      the time limits are those asked for, if they fit 64 bits. */
  lemma SpawnAsked(c: Core, reqId: u32, path: bytes, timeoutMs: nat, idleTimeoutMs: nat, argv: seq<bytes>, now: nat,
                   env: Env)
    requires !c.proc.active && env.launch(c.proc.spawns).ChildStarted?
    requires |SpawnPayload(path, timeoutMs, idleTimeoutMs, argv)| <= MAX_FRAME_PAYLOAD
    ensures var m := Message(PROC_SPAWN, reqId, SpawnPayload(path, timeoutMs, idleTimeoutMs, argv));
            var p := Dispatch(c, m, now, env).proc;
            && (p.active && p.file == Some(path) && p.args == argv
                <==> Kv.Clean(path) && AllClean(argv) && UsableArg(path) && Survives(path, argv))
            && (Kv.Clean(path) && AllClean(argv) && UsableArg(path) ==>
                  && p.active && p.file == Some(path)
                  && p.args == (if Usable(argv) <= 1 then [path] else argv[..Usable(argv)])
                  && p.started == p.lastIo == now
                  && p.timeout == (if timeoutMs < TWO_64 then timeoutMs else 60000)
                  && p.idleTimeout == (if idleTimeoutMs < TWO_64 then idleTimeoutMs else 10000))
  {
    hide Send, SendError, SpawnReply, SpawnPayload, Args, Kv.Copy, Kv.CopyU64Or, PATH, TIMEOUT_MS, IDLE_TIMEOUT_MS,
         Kv.Clean, Survives, AllClean;
    SpawnRoundTrip(path, timeoutMs, idleTimeoutMs, argv);
    if Kv.Clean(path) && AllClean(argv) {
      SpawnTimes(path, timeoutMs, idleTimeoutMs, argv);
      SpawnPath(path, timeoutMs, idleTimeoutMs, argv);
      SpawnArgs(path, timeoutMs, idleTimeoutMs, argv);
    }
  }

  /** The same for a reachable session that is between frames and reads the request. */
  lemma SpawnRead(w: World, reqId: u32, path: bytes, timeoutMs: nat, idleTimeoutMs: nat, argv: seq<bytes>, at: nat,
                  env: Oracle)
    requires Reachable(w) && w.rx == [] && !w.core.proc.active
    requires env(w.core.framesRx).launch(w.core.proc.spawns).ChildStarted?
    requires HEADER_SIZE + |SpawnPayload(path, timeoutMs, idleTimeoutMs, argv)| <= READ_CHUNK
    ensures var m := Message(PROC_SPAWN, reqId, SpawnPayload(path, timeoutMs, idleTimeoutMs, argv));
            && ValidMessage(m)
            && var p := Step(w, at, ReadBytes(EncodeMessage(m), env)).core.proc;
               && (p.active && p.file == Some(path) && p.args == argv
                   <==> Kv.Clean(path) && AllClean(argv) && UsableArg(path) && Survives(path, argv))
               && (Kv.Clean(path) && AllClean(argv) && UsableArg(path) && timeoutMs < TWO_64 && idleTimeoutMs < TWO_64 ==>
                     p.active && p.timeout == timeoutMs && p.idleTimeout == idleTimeoutMs)
  {
    hide SpawnPayload, Step, Dispatch, EncodeMessage, Kv.Clean, Survives, AllClean, Reachable;
    var m := Message(PROC_SPAWN, reqId, SpawnPayload(path, timeoutMs, idleTimeoutMs, argv));
    ReadFrame(w, m, at, env);
    SpawnAsked(Routing(w, m, at), reqId, path, timeoutMs, idleTimeoutMs, argv, at, env(w.core.framesRx));
  }

  // ---- What a KILL frame kills ----

  function KillItems(id: u32): Items {
    [(Ascii("proc_id"), Decimal(id))]
  }

  /** The id a KILL names: a number in at most 31 characters, taken modulo 2^32. */
  lemma KillId(v: bytes)
    requires Kv.Clean(v)
    ensures ProcIdIn(EncodeKv([(Ascii("proc_id"), v)]))
         == if 0 < |v| < 32 && ParseU64(v).Some? then Some(ParseU64(v).value % TWO_32) else None
  {
    hide EncodeKv, Kv.Lookup, ParseU64;
    WordIsKey("proc_id");
    EncodedPresent([(Ascii("proc_id"), v)], 0);
  }

  lemma KillReadBack(id: u32)
    ensures ProcIdIn(EncodeKv(KillItems(id))) == Some(id)
  {
    hide EncodeKv, ParseU64, ProcIdIn;
    var digits := Decimal(id);
    KillId(digits);
    Download.DecimalRead(id);
    DecimalU64Fits(id);
  }

  /** KILL with the client's payload: one kill of the running child, as requested, if and only if the id is
      that of the running child; otherwise nothing happens to the child. */
  lemma KillAsked(c: Core, reqId: u32, id: u32, now: nat, env: Env)
    ensures var m := Message(KILL, reqId, EncodeKv(KillItems(id)));
            var p, q := c.proc, Dispatch(c, m, now, env).proc;
            q == if p.active && p.procId == id then p.(kill := Requested, log := p.log + [KillTried(Requested)]) else p
  {
    hide Send, SendError, EncodeKv, KillItems, ProcIdIn, KillReply;
    KillReadBack(id);
  }

  // ---- Refused downloads ----

  /** GET_BEGIN without a path, for a file that does not open, that cannot be examined, or whose
      announcement does not fit: one ERROR that says so. */
  lemma GetRefused(c: Core, reqId: u32, payload: bytes, now: nat, env: Env)
    requires c.download == IDLE
    ensures var l, r, path := c.link, GetBegin(c, reqId, payload, now, env).link, Kv.Copy(payload, PATH(), PATH_CAP);
            if path.None? then r == SendEach(l, Refusal(reqId, Ascii("bad_payload"), Ascii("missing path")), now, env)
            else if !env.openOk || path.value !in c.fs.files || env.fd in c.fs.open then
              r == SendEach(l, Refusal(reqId, Ascii("not_found"), env.strerror), now, env)
            else if !env.statOk then r == SendEach(l, Refusal(reqId, Ascii("io_error"), env.strerror), now, env)
            else
              |BeginReply(reqId, path.value, |c.fs.files[path.value]|)| >= REPLY_CAP ==>
                r == SendEach(l, Refusal(reqId, Ascii("internal"), Ascii("reply overflow")), now, env)
  {
    hide Send, SendError, SendEach, Refusal, Ascii, Kv.Copy, PATH, ChunkSize, GetChunks, BeginReply, Abort;
    SendRefusal(c.link, reqId, MissingPath, now, env);
    SendRefusal(c.link, reqId, NotFound, now, env);
    SendRefusal(c.link, reqId, FileError, now, env);
    SendRefusal(c.link, reqId, ReplyOverflow, now, env);
  }

  /** The ERROR that ends a download whose file cannot be read on. */
  lemma ReadFailedText(reqId: u32, strerror: bytes)
    ensures Refusal(reqId, Ascii("io_error"), Ascii("read failed")) == [Message(ERROR, reqId, ErrorText(ReadFailed, strerror))]
  {
    ErrorIs(ReadFailed, strerror);
    TwoItems((Ascii("code"), Ascii("io_error")), (Ascii("message"), Ascii("read failed")));
  }

  // ---- The transfer counters, frame by frame ----

  /** An upload frame counts a start for every well-formed PUT_BEGIN while no upload is in progress, an
      abort for every chunk that ends the upload, and a completion for every PUT_END that stores; no other
      frame but GET_BEGIN counts anything. */
  lemma UploadCounts(h: Hist, c: Core, m: Message, now: nat, env: Env)
    requires CoreOk(c, now) && HistOk(h, c) && c.link.tcp != Closed && m.kind != GET_BEGIN
    ensures var g, t, u := Remember(h, m, now, env), c.tally, Dispatch(c, m, now, env).tally;
            var path, size := Kv.Copy(m.payload, PATH(), PATH_CAP), Kv.CopyU64(m.payload, SIZE());
            u == if m.kind == PUT_BEGIN && h.job.None? && path.Some? && size.Some? then t.(starts := t.starts + 1)
                 else if m.kind == PUT_CHUNK && h.job.Some? && g.job.None? then t.(aborts := t.aborts + 1)
                 else if m.kind == PUT_END && |g.effects| > |h.effects| && g.effects[|h.effects|].Stored?
                 then t.(completes := t.completes + 1)
                 else t
  {
    hide Send, SendError, LinkOk, ProcOk, Part, Kv.Copy, Kv.CopyU64, Kv.CopyU64Or, PATH, SIZE, OVERWRITE, CHUNK_SIZE, ONE,
         Final, Whole, Abort, BeginReply, EndReply, PutBegin, PutChunk, PutEnd, Dispatch;
    if m.kind == PUT_BEGIN {
      RouteBegin(c, m, now, env);
      BeginCounted(h, c, m.reqId, m.payload, now, env);
    } else if m.kind == PUT_CHUNK {
      RouteChunk(c, m, now, env);
      ChunkCounted(h, c, m.reqId, m.payload, now, env);
    } else if m.kind == PUT_END {
      RouteEnd(c, m, now, env);
      EndCounted(h, c, m.reqId, now, env);
    } else {
      Matching.OtherTally(c, m, now, env);
    }
  }

  lemma BeginCounted(h: Hist, c: Core, reqId: u32, payload: bytes, now: nat, env: Env)
    requires c.upload == SlotFor(h.job)
    ensures var path, size := Kv.Copy(payload, PATH(), PATH_CAP), Kv.CopyU64(payload, SIZE());
            PutBegin(c, reqId, payload, now, env).tally
            == if h.job.None? && path.Some? && size.Some? then c.tally.(starts := c.tally.starts + 1) else c.tally
  {
    hide Send, SendError, Part, Kv.Copy, Kv.CopyU64, Kv.CopyU64Or, PATH, SIZE, OVERWRITE, CHUNK_SIZE, ONE, Abort, BeginReply,
         OpenForWrite;
  }

  lemma ChunkCounted(h: Hist, c: Core, reqId: u32, data: bytes, now: nat, env: Env)
    requires CoreOk(c, now) && c.upload == SlotFor(h.job)
    ensures PutChunk(c, reqId, data, now, env).tally
         == if h.job.Some? && RememberChunk(h, reqId, data, now, env).job.None?
            then c.tally.(aborts := c.tally.aborts + 1) else c.tally
  {
    hide Send, SendError, LinkOk, ProcOk, Part, Abort, BeginReply, WriteAt;
    if c.upload.active {
      WriteCounts(c.fs, c.upload.file, c.upload.offset, data, env);
    }
  }

  lemma EndCounted(h: Hist, c: Core, reqId: u32, now: nat, env: Env)
    requires CoreOk(c, now) && c.upload == SlotFor(h.job)
    ensures var g := RememberEnd(h, reqId, env);
            PutEnd(c, reqId, now, env).tally
            == if |g.effects| > |h.effects| && g.effects[|h.effects|].Stored?
               then c.tally.(completes := c.tally.completes + 1) else c.tally
  {
    hide Send, SendError, LinkOk, ProcOk, Abort, BeginReply, EndReply, FinalizeRename;
    var u := c.upload;
    if u.active {
      EndReplyShorter(u.reqId, u.path.value, u.total);
      RenameFiles(u.(file := -1), CloseFd(c.fs, u.file), env, u.path.value + [0]);
    }
  }
}
