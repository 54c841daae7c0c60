/** Reachable runs on which the agent does not do what one would expect of it: the failing inputs beside
    the exact conditions of Theorems, Destination and Matching. */
module Witnesses {
  import opened Bytes
  import opened Frame
  import opened Stream
  import opened SessionState
  import opened Transfers
  import opened Procs
  import opened Protocol
  import opened Server
  import opened Lifetime
  import opened Invariants
  import opened Runs
  import opened Theorems
  import opened Argv
  import opened Client
  import Destination
  import EndToEnd
  import Kv

  /** Calls that succeed, but for the launch, the open and the rename as given. */
  function Answers(launch: Launch, openOk: bool, renameOk: bool): Env {
    Env(_ => true, openOk, 3, true, _ => MAX_FRAME_PAYLOAD, MAX_FRAME_PAYLOAD, true, _ => true, renameOk,
        _ => launch, true, [], [], true)
  }

  const NAME: bytes := [97]

  /** The run leads from the accept to w. */
  ghost predicate Leads(disk: map<bytes, bytes>, run: seq<Timed>, w: World) {
    ValidRun(Start(0, disk), run) && w == RunAll(Start(0, disk), run)
  }

  lemma LeadsNowhere(disk: map<bytes, bytes>)
    ensures Leads(disk, [], Start(0, disk))
  {
    hide Start;
  }

  lemma LeadsOn(disk: map<bytes, bytes>, run: seq<Timed>, w: World, e: Event)
    requires Leads(disk, run, w) && w.clock == 0 && Enabled(w, e)
    ensures Leads(disk, run + [Timed(0, e)], Step(w, 0, e))
  {
    hide Step, Enabled, Start;
    RunSnoc(Start(0, disk), run, Timed(0, e));
  }

  lemma LeadsReachable(disk: map<bytes, bytes>, run: seq<Timed>, w: World)
    requires Leads(disk, run, w)
    ensures Reachable(w)
  {
    hide Start, ValidRun, RunAll;
  }

  // ---- Spawns ----

  function SpawnFrame(): Message {
    Message(PROC_SPAWN, 1000, SpawnPayload(NAME, 0, 0, []))
  }

  lemma SpawnFrameFits()
    ensures ValidMessage(SpawnFrame()) && WireSize(SpawnFrame()) <= 200
    ensures Kv.Copy(SpawnFrame().payload, PATH(), PATH_CAP) == Some(NAME)
  {
    hide Kv.Copy;
    SpawnPath(NAME, 0, 0, []);
    var items := SpawnItems(NAME, 0, 0, []);
    var lines := ItemLines(items);
    DecimalU64Fits(0);
    assert |lines| == 3 && |lines[0]| == 6 && |lines[1]| <= 31 && |lines[2]| <= 36;
    var two := lines[1..];
    assert two[0] == lines[1] && two[1..] == [lines[2]];
    assert |Join(two)| == |lines[1]| + 1 + |lines[2]|;
  }

  /** The handler behind the frame. */
  lemma SpawnRouted(c: Core, now: nat, env: Env) returns (args: seq<bytes>, timeout: nat, idle: nat)
    ensures Dispatch(c, SpawnFrame(), now, env) == Spawn(c, 1000, NAME, args, timeout, idle, true, now, env)
  {
    hide Spawn, Kv.Copy, Kv.CopyU64Or, SpawnPayload, Args, PATH, TIMEOUT_MS, IDLE_TIMEOUT_MS;
    SpawnFrameFits();
    var payload := SpawnFrame().payload;
    args, timeout, idle := Args(payload, NAME), Kv.CopyU64Or(payload, TIMEOUT_MS(), 60000),
                           Kv.CopyU64Or(payload, IDLE_TIMEOUT_MS(), 10000);
  }

  /** The same connection, with one more frame in flight at most. */
  predicate Sent(l: Link, r: Link) {
    && r.closed == l.closed && r.timer == l.timer && r.tcp == l.tcp && r.timerStarted == l.timerStarted
    && r.closeRefs == l.closeRefs && r.freed == l.freed
    && r.pending <= l.pending + ERROR_CAP + HEADER_SIZE && |r.inflight| <= |l.inflight| + 1
  }

  lemma SmallSend(l: Link, m: Message, now: nat, env: Env)
    requires !l.closed && |m.payload| <= ERROR_CAP && l.pending <= 10000
    ensures Sent(l, Send(l, m, now, env).0)
  {
    hide EncodeMessage;
  }

  lemma SmallError(l: Link, reqId: u32, f: Failure, now: nat, env: Env)
    requires !l.closed && l.pending <= 10000
    ensures Sent(l, SendError(l, reqId, f, now, env))
  {
    hide Send, ErrorText;
    var text := ErrorText(f, env.strerror);
    if |text| < ERROR_CAP {
      SmallSend(l, Message(ERROR, reqId, text), now, env);
    }
  }

  /** A refused spawn on an open session without a child: both pipes are left closing, uncounted. */
  lemma RefusedSpawn(c: Core, now: nat)
    requires !c.link.closed && c.link.pending <= 10000 && !c.proc.active
    ensures var launch := SpawnRefused([]);
            var r := Dispatch(c, SpawnFrame(), now, Answers(launch, true, true));
            && r.proc == LeavePipes(Attempt(c.proc), launch) && Sent(c.link, r.link)
            && r == c.(link := r.link, proc := r.proc, nextProcId := r.nextProcId)
  {
    hide Send, SendError, SpawnReply, Dispatch, LeavePipes, Attempt, SpawnFrame, Sent;
    var env := Answers(SpawnRefused([]), true, true);
    var args, timeout, idle := SpawnRouted(c, now, env);
    SmallError(c.link, 1000, SpawnFailed([]), now, env);
  }

  /** A spawn that succeeds: three more references and three open handles, whatever was there. */
  lemma AcceptedSpawn(c: Core, now: nat)
    requires !c.link.closed && c.link.pending <= 10000 && !c.proc.active
    ensures var r := Dispatch(c, SpawnFrame(), now, Answers(ChildStarted, true, true));
            && Sent(c.link.(closeRefs := c.link.closeRefs + 3), r.link)
            && r.proc.active && r.proc.process == Open && r.proc.stdoutPipe == Open && r.proc.stderrPipe == Open
            && !r.proc.stdoutClosed && !r.proc.stderrClosed
            && r.proc.overlapped == (c.proc.overlapped || HandlesLive(c.proc))
  {
    hide Send, SendError, SpawnReply, Dispatch, SpawnFrame, Sent;
    var env := Answers(ChildStarted, true, true);
    var args, timeout, idle := SpawnRouted(c, now, env);
    var l, reply := c.link.(closeRefs := c.link.closeRefs + 3), SpawnReply(c.nextProcId, NAME);
    SmallError(l, 1000, ReplyOverflow, now, env);
    if |reply| < REPLY_CAP {
      SmallSend(l, Message(ACK, 1000, reply), now, env);
    }
  }

  /** Fourteen bytes that are no header. */
  function Junk(): bytes { Zeros(14) }

  lemma JunkIsBad()
    ensures |Junk()| == 14 && First(Junk()).Malformed?
  {
    assert Junk()[0] == 0;
    assert Junk()[..4][0] != MAGIC[0];
  }

  /** A read of one frame and then no header: the frame is dispatched, and the session is closed. */
  lemma ReadThenJunk(w: World, m: Message, now: nat, env: Oracle)
    requires ValidMessage(m) && WireSize(m) + 14 <= READ_CHUNK && w.rx == []
    ensures var s := Step(w, now, ReadBytes(EncodeMessage(m) + Junk(), env));
            var r := Receive(w.core.(link := w.core.link.(lastRx := now)), m, now, env);
            s.core == r.(link := CloseLink(r.link)) && s.clock == now
  {
    hide EncodeMessage, Receive, First, CloseLink, Junk;
    JunkIsBad();
    var all := EncodeMessage(m) + Junk();
    assert [] + all == all;
    FirstEncoded(m, Junk());
    assert all[WireSize(m)..] == Junk();
    assert Parse(Junk()) == Parsed([], Junk(), true);
    assert Parse(all) == Parsed([m] + [], Junk(), true);
    var ms: seq<Message> := [m];
    assert ms[1..] == [];
    var c1 := w.core.(link := w.core.link.(lastRx := now));
    assert ReceiveAll(c1, ms, now, env) == Receive(c1, m, now, env);
  }

  predicate Abandoned(p: Proc) {
    !p.overlapped && !p.active && p.stdoutPipe == Detached && p.stderrPipe == Detached
  }

  /** Closed, with the close callbacks of timer and socket to come. */
  predicate Winding(l: Link) {
    l.closed && l.timer == Closing && l.tcp == Closing && l.closeRefs == 2 && l.freed == 0 && |l.inflight| <= 1
  }

  lemma SentClosed(l: Link, r: Link)
    requires Sent(l, r) && !l.closed && l.timerStarted && l.closeRefs == 1 && l.freed == 0 && l.inflight == []
    ensures Winding(CloseLink(r))
  {
  }

  /** A session closed right after a refused spawn: two references, two pipes closing without one. */
  lemma ClosedAfterRefusal() returns (run: seq<Timed>, w: World)
    ensures Leads(map[], run, w) && Abandoned(w.core.proc) && w.clock == 0 && Winding(w.core.link)
  {
    hide Leads, Dispatch, SpawnFrame, Sent, Junk, EncodeMessage, Winding, Step, Kv.Copy, PATH, CloseLink;
    SpawnFrameFits();
    JunkIsBad();
    var start := Start(0, map[]);
    LeadsNowhere(map[]);
    var env: Oracle := _ => Answers(SpawnRefused([]), true, true);
    var m := SpawnFrame();
    var e := ReadBytes(EncodeMessage(m) + Junk(), env);
    LeadsOn(map[], [], start, e);
    ReadThenJunk(start, m, 0, env);
    var c1 := start.core.(link := start.core.link.(lastRx := 0));
    var c2 := c1.(framesRx := 1, bytesRx := WireSize(m));
    RefusedSpawn(c2, 0);
    SentClosed(c2.link, Dispatch(c2, m, 0, env(0)).link);
    run, w := [] + [Timed(0, e)], Step(start, 0, e);
  }

  /** With its writes completed. */
  lemma DrainedAfterRefusal() returns (run: seq<Timed>, w: World)
    ensures Leads(map[], run, w) && Abandoned(w.core.proc) && w.clock == 0
    ensures Winding(w.core.link) && w.core.link.inflight == []
  {
    hide Leads, Abandoned;
    run, w := ClosedAfterRefusal();
    if w.core.link.inflight != [] {
      LeadsOn(map[], run, w, WriteCompleted);
      run, w := run + [Timed(0, WriteCompleted)], Step(w, 0, WriteCompleted);
    }
  }

  /** One read that holds a PROC_SPAWN libuv refuses and then no header, followed by the close callbacks
      of socket and timer: the session is freed while libuv still holds the two pipes inside it. */
  lemma FreedWithDetachedPipes() returns (run: seq<Timed>)
    ensures ValidRun(Start(0, map[]), run)
    ensures var w := RunAll(Start(0, map[]), run);
            && !w.core.proc.overlapped && w.core.link.freed == 1
            && w.core.link.closeRefs == 0 && Outstanding(w.core) == 2
            && Enabled(w, DetachedPipeClosed(Out)) && Enabled(w, DetachedPipeClosed(Err))
  {
    hide ValidRun, RunAll, Abort;
    var env := Answers(SpawnRefused([]), true, true);
    var w0, w1, w2;
    run, w0 := DrainedAfterRefusal();
    LeadsOn(map[], run, w0, TcpHandleClosed(env));
    run, w1 := run + [Timed(0, TcpHandleClosed(env))], Step(w0, 0, TcpHandleClosed(env));
    LeadsOn(map[], run, w1, TimerHandleClosed(env));
    run, w2 := run + [Timed(0, TimerHandleClosed(env))], Step(w1, 0, TimerHandleClosed(env));
    LeadsReachable(map[], run, w2);
    ReferenceCounting(w2);
  }

  /** A read of the frame by an open session that is between frames, and what the router makes of it. */
  lemma ReadOn(disk: map<bytes, bytes>, run: seq<Timed>, w: World, m: Message, env: Env)
    returns (next: seq<Timed>, s: World, c: Core)
    requires Leads(disk, run, w) && !w.core.link.closed && w.rx == [] && w.clock == 0
    requires ValidMessage(m) && WireSize(m) <= 1000
    ensures Leads(disk, next, s) && s.rx == [] && s.clock == 0 && s.core == Dispatch(c, m, 0, env)
    ensures c == w.core.(link := w.core.link.(lastRx := 0), framesRx := c.framesRx, bytesRx := c.bytesRx)
    ensures CoreOk(c, 0)
  {
    hide Dispatch, Step, EncodeMessage, Leads, LinkOk, ProcOk, UploadOk, First, Reachable;
    var oracle: Oracle := _ => env;
    LeadsReachable(disk, run, w);
    ReachableOk(w);
    OpenTcp(w);
    var e := ReadBytes(EncodeMessage(m), oracle);
    LeadsOn(disk, run, w, e);
    ReadFrame(w, m, 0, oracle);
    next, s := run + [Timed(0, e)], Step(w, 0, e);
    HeardKeeps(w.core.link, w.core.proc, 0);
    c := w.core.(link := w.core.link.(lastRx := 0), framesRx := w.core.framesRx + 1,
                 bytesRx := w.core.bytesRx + WireSize(m));
  }

  lemma OpenTcp(w: World)
    requires WorldOk(w) && !w.core.link.closed
    ensures w.core.link.tcp == Open
  {
    hide ProcOk, UploadOk, First;
  }

  /** A session with a running child. */
  lemma WithChild() returns (run: seq<Timed>, w: World)
    ensures Leads(map[], run, w) && w.rx == [] && w.clock == 0
    ensures var l, p := w.core.link, w.core.proc;
            && !l.closed && l.closeRefs == 4 && l.timer == Open && l.tcp == Open && l.pending <= 1000
            && p.active && !p.overlapped && p.process == Open && p.stdoutPipe == Open && p.stderrPipe == Open
            && !p.stdoutClosed && !p.stderrClosed
  {
    hide Leads, Dispatch, SpawnFrame, Kv.Copy, PATH, CoreOk;
    SpawnFrameFits();
    LeadsNowhere(map[]);
    var c;
    run, w, c := ReadOn(map[], [], Start(0, map[]), SpawnFrame(), Answers(ChildStarted, true, true));
    AcceptedSpawn(c, 0);
  }

  lemma ExitSends(c: Core, now: nat, env: Env)
    requires !c.link.closed && c.link.pending <= 10000
    ensures Sent(c.link, ProcExit(c, 0, now, env).link)
  {
    hide Send, ExitReply, MaybeFinalize;
    var p := c.proc;
    var text := ExitReply(p.procId, 0, p.kill);
    if |text| < REPLY_CAP {
      SmallSend(c.link, Message(EXIT, p.procId, text), now, env);
    }
  }

  /** A second spawn after the first child's exit, before its handles have closed: three references
      more than handles. */
  lemma RespawnTooEarly() returns (run: seq<Timed>)
    ensures ValidRun(Start(0, map[]), run)
    ensures var w := RunAll(Start(0, map[]), run);
            && w.core.proc.overlapped && !w.core.link.closed
            && w.core.link.closeRefs == Outstanding(w.core) + 3
  {
    hide ValidRun, RunAll, Dispatch, SpawnFrame, ExitReply, Send, Kv.Copy, PATH, CoreOk;
    SpawnFrameFits();
    var env := Answers(ChildStarted, true, true);
    var w0, w1, w2, c;
    run, w0 := WithChild();
    LeadsOn(map[], run, w0, ChildExited(0, env));
    run, w1 := run + [Timed(0, ChildExited(0, env))], Step(w0, 0, ChildExited(0, env));
    ExitSends(w0.core, 0, env);
    run, w2, c := ReadOn(map[], run, w1, SpawnFrame(), env);
    AcceptedSpawn(c, 0);
  }

  /** A good spawn right after a refused one initialises pipes that libuv is still closing; the count
      does not show it. */
  lemma RespawnOverDetached() returns (run: seq<Timed>)
    ensures ValidRun(Start(0, map[]), run)
    ensures var w := RunAll(Start(0, map[]), run);
            && w.core.proc.overlapped && w.core.proc.active && !w.core.link.closed
            && w.core.link.closeRefs == Outstanding(w.core)
  {
    hide ValidRun, RunAll, Dispatch, SpawnFrame, Kv.Copy, PATH, CoreOk;
    SpawnFrameFits();
    LeadsNowhere(map[]);
    var w0, w1, c0, c1;
    run, w0, c0 := ReadOn(map[], [], Start(0, map[]), SpawnFrame(), Answers(SpawnRefused([]), true, true));
    RefusedSpawn(c0, 0);
    run, w1, c1 := ReadOn(map[], run, w0, SpawnFrame(), Answers(ChildStarted, true, true));
    AcceptedSpawn(c1, 0);
  }

  // ---- Uploads ----

  function BeginFrame(): Message {
    Message(PUT_BEGIN, 1000, EncodeKv(PutItems(NAME, 0)))
  }

  lemma NameUploadable()
    ensures EndToEnd.Uploadable(1000, NAME, [])
  {
    DecimalU64Fits(1000);
    DecimalU64Fits(0);
  }

  lemma BeginFrameFits()
    ensures ValidMessage(BeginFrame()) && WireSize(BeginFrame()) <= 1000
    ensures Kv.Copy(BeginFrame().payload, PATH(), PATH_CAP) == Some(NAME)
    ensures Kv.CopyU64(BeginFrame().payload, SIZE()) == Some(0)
    ensures Overwrites(BeginFrame().payload)
  {
    hide Kv.Lookup, EncodeKv, PutItems, Encodable;
    NameUploadable();
    EndToEnd.BeginReadBack(1000, NAME, []);
    EndToEnd.BeginSize(NAME, 0);
    DecimalU64Fits(0);
    EndToEnd.PutItemsEncodable(NAME, 0);
    LastItem();
    EncodedPresent(PutItems(NAME, 0), 2);
  }

  lemma LastItem()
    ensures |PutItems(NAME, 0)| == 3 && PutItems(NAME, 0)[2] == (OVERWRITE(), ONE()) && |ONE()| == 1
  {
  }

  /** The slot and the counters after PUT_BEGIN. */
  lemma Begun(c: Core, now: nat, env: Env)
    requires c.upload == IDLE
    ensures var r := PutBegin(c, 1000, BeginFrame().payload, now, env);
            && r.tally == Started(c.tally)
            && (r.upload.active ==>
                  && r.upload.path == Some(NAME) && r.upload.reqId == 1000 && r.upload.total == 0
                  && r.upload.offset == 0 && r.upload.overwrite)
  {
    hide Send, SendError, BeginReply, Part, Kv.Copy, Kv.CopyU64, Kv.CopyU64Or, PATH, SIZE, OVERWRITE, CHUNK_SIZE,
         ONE, OpenForWrite, Overwrites, BeginFrame;
    BeginFrameFits();
  }

  lemma BegunOpen(c: Core, now: nat, env: Env)
    requires c.upload == IDLE && !c.link.closed && c.link.pending <= 10000
    ensures !PutBegin(c, 1000, BeginFrame().payload, now, env).link.closed
  {
    hide Send, SendError, BeginReply, Part, Kv.Copy, Kv.CopyU64, Kv.CopyU64Or, PATH, SIZE, OVERWRITE, CHUNK_SIZE,
         ONE, OpenForWrite, Overwrites, BeginFrame;
    BeginFrameFits();
    SmallError(c.link, 1000, FileError, now, env);
    SmallError(c.link, 1000, ReplyOverflow, now, env);
    var reply := BeginReply(1000, NAME, 0);
    if |reply| < REPLY_CAP {
      SmallSend(c.link, Message(ACK, 1000, reply), now, env);
    }
  }

  /** PUT_BEGIN read by a fresh session. */
  lemma BeginRead(disk: map<bytes, bytes>, env: Env) returns (run: seq<Timed>, w: World, c: Core)
    ensures Leads(disk, run, w) && w.rx == [] && w.clock == 0 && !w.core.link.closed
    ensures c.fs == Fs(disk, map[], 0) && c.upload == IDLE && c.tally == Tally(0, 0, 0) && CoreOk(c, 0)
    ensures w.core == PutBegin(c, 1000, BeginFrame().payload, 0, env)
  {
    hide Leads, EncodeKv, PutItems, PutBegin, Dispatch, CoreOk, Kv.Copy, Kv.CopyU64, Overwrites, PATH, SIZE;
    BeginFrameFits();
    LeadsNowhere(disk);
    run, w, c := ReadOn(disk, [], Start(0, disk), BeginFrame(), env);
    Destination.RouteBegin(c, BeginFrame(), 0, env);
    BegunOpen(c, 0, env);
  }

  /** PUT_BEGIN for "a" where "a.part" holds a file: that file is emptied, though no upload to it was
      ever begun. */
  lemma PartLost(kept: bytes) returns (run: seq<Timed>)
    requires kept != []
    ensures var start := Start(0, map[Part(NAME) := kept]);
            ValidRun(start, run) && Destination.At(start.core.fs, Part(NAME)) == Some(kept)
            && Destination.At(RunAll(start, run).core.fs, Part(NAME)) == Some([])
  {
    hide ValidRun, RunAll, BeginFrame, PutBegin, Kv.Copy, Kv.CopyU64, PATH, SIZE, Part, BeginReply, CoreOk;
    BeginFrameFits();
    NameUploadable();
    var env := Answers(ChildStarted, true, true);
    var w, c;
    run, w, c := BeginRead(map[Part(NAME) := kept], env);
    Destination.BeginOutcome(c, 1000, BeginFrame().payload, 0, env, NAME, 0);
  }

  /** PUT_BEGIN whose temporary file does not open: a start that is neither completed nor aborted nor
      active. */
  lemma StartUnmatched() returns (run: seq<Timed>)
    ensures ValidRun(Start(0, map[]), run)
    ensures var w := RunAll(Start(0, map[]), run);
            w.core.tally == Tally(1, 0, 0) && !w.core.upload.active
  {
    hide ValidRun, RunAll, BeginFrame, PutBegin, Kv.Copy, Kv.CopyU64, PATH, SIZE, Part, BeginReply, CoreOk;
    BeginFrameFits();
    var env := Answers(ChildStarted, false, true);
    var w, c;
    run, w, c := BeginRead(map[], env);
    Destination.BeginOutcome(c, 1000, BeginFrame().payload, 0, env, NAME, 0);
    Begun(c, 0, env);
  }

  /** An overwriting upload that is complete, and whose rename fails after the old file was unlinked:
      the destination is gone. */
  lemma DestinationLost(kept: bytes) returns (run: seq<Timed>)
    ensures var start := Start(0, map[NAME := kept]);
            ValidRun(start, run) && Destination.At(start.core.fs, NAME) == Some(kept)
            && Destination.At(RunAll(start, run).core.fs, NAME) == None
  {
    hide ValidRun, RunAll, BeginFrame, PutBegin, Kv.Copy, Kv.CopyU64, PATH, SIZE, Part, BeginReply, CoreOk, PutEnd;
    BeginFrameFits();
    NameUploadable();
    var env := Answers(ChildStarted, true, false);
    var w0, w1, c0, c1;
    run, w0, c0 := BeginRead(map[NAME := kept], env);
    Destination.BeginOutcome(c0, 1000, BeginFrame().payload, 0, env, NAME, 0);
    Begun(c0, 0, env);
    var end := Message(PUT_END, 1000, []);
    run, w1, c1 := ReadOn(map[NAME := kept], run, w0, end, env);
    Destination.RouteEnd(c1, end, 0, env);
    Destination.EndOutcome(c1, 1000, 0, env);
  }
}
