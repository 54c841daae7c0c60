/** Reassembly as a session does it: over every run, with ticks, child events and write completions
    between the reads, and handlers that may close the session. */
module Reassembly {
  import opened Bytes
  import opened Frame
  import opened Stream
  import opened SessionState
  import opened Transfers
  import opened Procs
  import opened Server
  import opened Lifetime
  import opened Invariants
  import opened Runs
  import EndToEnd

  /** The bytes read in a run. */
  function BytesRead(run: seq<Timed>): bytes {
    if run == [] then []
    else (if run[0].event.ReadBytes? then run[0].event.chunk else []) + BytesRead(run[1..])
  }

  /** The frames that one event hands to the router, in order (see Server.ReadDelivers). */
  function Routed(w: World, e: Event): seq<Message> {
    if e.ReadBytes? then Deliver(w.rx, e.chunk).messages else []
  }

  ghost function Dispatched(w: World, run: seq<Timed>): seq<Message>
    decreases |run|
  {
    if run == [] then []
    else Routed(w, run[0].event) + Dispatched(Step(w, run[0].at, run[0].event), run[1..])
  }

  predicate Overflows(w: World, e: Event) {
    e.ReadBytes? && |w.rx| + |e.chunk| > RX_CAP
  }

  ghost predicate NoOverflows(w: World, run: seq<Timed>)
    decreases |run|
  {
    run == [] ||
    (!Overflows(w, run[0].event) && NoOverflows(Step(w, run[0].at, run[0].event), run[1..]))
  }

  lemma OpenWorld(w: World)
    requires WorldOk(w)
    ensures w.core.link.tcp == Open <==> !w.core.link.closed
    ensures !w.core.link.closed ==> First(w.rx).Incomplete?
  {
    hide ProcOk, UploadOk, First;
  }

  /** A closed session reads nothing more. */
  lemma {:induction false} ClosedRun(w: World, run: seq<Timed>)
    requires WorldOk(w) && w.core.link.closed && ValidRun(w, run)
    ensures BytesRead(run) == [] && Dispatched(w, run) == [] && NoOverflows(w, run)
    ensures RunAll(w, run).core.link.closed
    decreases |run|
  {
    hide WorldOk, Step, Deliver;
    if run != [] {
      OpenWorld(w);
      StepKeeps(w, run[0].at, run[0].event);
      StaysClosed(w, run[0].at, run[0].event);
      ClosedRun(Step(w, run[0].at, run[0].event), run[1..]);
    }
  }

  lemma StaysClosed(w: World, now: nat, e: Event)
    requires WorldOk(w) && w.clock <= now < TWO_64 && !e.ReadBytes? && w.core.link.closed
    ensures Step(w, now, e).core.link.closed
  {
    hide CoreOk, Callback;
    Later(w.core, w.clock, now);
    CallbackLeaves(w.core, now, e);
  }

  /** The state right after a read of an open session, by the outcome of the reassembly. */
  lemma ReadOutcome(w: World, chunk: bytes, now: nat, env: Oracle)
    ensures var f, s := Deliver(w.rx, chunk), Step(w, now, ReadBytes(chunk, env));
            && (f.outcome.Going? ==> s.rx == f.rest)
            && (!f.outcome.Going? ==> s.core.link.closed)
  {
    hide Read, Deliver;
    ReadDelivers(w.rx, w.core, chunk, now, env);
  }

  lemma NothingYet(rx: bytes)
    requires First(rx).Incomplete?
    ensures Parse(rx) == Parsed([], rx, false)
  {
    hide First;
  }

  /** What holds of the frames dispatched so far, given the parse of all bytes. */
  ghost predicate Refines(w: World, run: seq<Timed>, all: bytes) {
    var p, s := Parse(all), RunAll(w, run);
    && Dispatched(w, run) <= p.messages
    && (NoOverflows(w, run) ==> Dispatched(w, run) == p.messages)
    && (!Overlong(all) ==> NoOverflows(w, run))
    && (!s.core.link.closed ==> NoOverflows(w, run) && s.rx == p.rest && !p.bad)
  }

  lemma QuietStep(w: World, run: seq<Timed>)
    requires run != [] && !run[0].event.ReadBytes?
    requires Refines(Step(w, run[0].at, run[0].event), run[1..], w.rx + BytesRead(run[1..]))
    ensures Refines(w, run, w.rx + BytesRead(run))
  {
    hide Step, Parse, Overlong, Deliver;
    var s := Step(w, run[0].at, run[0].event);
    assert [] + BytesRead(run[1..]) == BytesRead(run[1..]);
    assert [] + Dispatched(s, run[1..]) == Dispatched(s, run[1..]);
  }

  /** The run ends, as far as reading goes, with a read that closes the session. */
  lemma LastRead(w: World, run: seq<Timed>)
    requires run != [] && run[0].event.ReadBytes? && |run[0].event.chunk| <= READ_CHUNK
    requires First(w.rx).Incomplete?
    requires var s := Step(w, run[0].at, run[0].event);
             && BytesRead(run[1..]) == [] && Dispatched(s, run[1..]) == [] && NoOverflows(s, run[1..])
             && RunAll(s, run[1..]).core.link.closed
    ensures Refines(w, run, w.rx + BytesRead(run))
  {
    hide Step, Parse, Overlong, First;
    var chunk := run[0].event.chunk;
    assert BytesRead(run) == chunk + [] == chunk;
    if |w.rx| + |chunk| > RX_CAP && !Overlong(w.rx + chunk) {
      assert chunk + [] == chunk;
      EndToEnd.NoOverflow(w.rx, chunk, []);
    }
  }

  /** A read that leaves the session open. */
  lemma MoreReads(w: World, run: seq<Timed>)
    requires run != [] && run[0].event.ReadBytes? && First(w.rx).Incomplete?
    requires Deliver(w.rx, run[0].event.chunk).outcome.Going?
    requires var s := Step(w, run[0].at, run[0].event);
             && s.rx == Deliver(w.rx, run[0].event.chunk).rest
             && Refines(s, run[1..], s.rx + BytesRead(run[1..]))
    ensures Refines(w, run, w.rx + BytesRead(run))
  {
    hide Step, Parse, Overlong, First;
    var chunk, more := run[0].event.chunk, BytesRead(run[1..]);
    assert w.rx + BytesRead(run) == (w.rx + chunk) + more;
    ParseAppend(w.rx + chunk, more);
    OverlongAfterParse(w.rx + chunk, more);
  }

  lemma {:induction false} RunReassembly(w: World, run: seq<Timed>)
    requires WorldOk(w) && !w.core.link.closed && ValidRun(w, run)
    ensures Refines(w, run, w.rx + BytesRead(run))
    decreases |run|
  {
    hide WorldOk, Step, Deliver, Parse, First, Refines, Overlong;
    OpenWorld(w);
    if run == [] {
      NothingRead(w);
    } else {
      var e := run[0].event;
      var s := Step(w, run[0].at, e);
      StepKeeps(w, run[0].at, e);
      if s.core.link.closed {
        ClosedRun(s, run[1..]);
        if e.ReadBytes? {
          LastRead(w, run);
        } else {
          CloserReadsNothing(w, s, run[1..]);
          QuietStep(w, run);
        }
      } else {
        RunReassembly(s, run[1..]);
        if e.ReadBytes? {
          ReadOutcome(w, e.chunk, run[0].at, e.oracle);
          MoreReads(w, run);
        } else {
          SameBuffer(w, run[0].at, e);
          QuietStep(w, run);
        }
      }
    }
  }

  lemma NothingRead(w: World)
    requires First(w.rx).Incomplete?
    ensures Refines(w, [], w.rx + BytesRead([]))
  {
    hide First, Overlong;
    assert w.rx + [] == w.rx;
    NothingYet(w.rx);
  }

  lemma SameBuffer(w: World, now: nat, e: Event)
    requires !e.ReadBytes?
    ensures Step(w, now, e).rx == w.rx
  {
    hide Callback;
  }

  /** After a callback that closes the session the buffer is as good as the whole stream. */
  lemma CloserReadsNothing(w: World, s: World, run: seq<Timed>)
    requires First(w.rx).Incomplete? && BytesRead(run) == [] && Dispatched(s, run) == []
    requires NoOverflows(s, run) && RunAll(s, run).core.link.closed
    ensures Refines(s, run, w.rx + BytesRead(run))
  {
    hide First, Overlong, Step;
    assert w.rx + [] == w.rx;
    NothingYet(w.rx);
  }

  /** From any reachable state of an open session, over every run: what is dispatched is a prefix of
      the one-shot parse of all bytes read. Unless the stream is overlong no read overflows the
      buffer; without an overflow, whatever else may close the session, the dispatched frames are all
      frames of the stream; and if the session is still open, the rest is in the buffer. */
  lemma ReachableReassembly(w: World, run: seq<Timed>)
    requires Reachable(w) && !w.core.link.closed && ValidRun(w, run)
    ensures var all := w.rx + BytesRead(run);
            var p, s := Parse(all), RunAll(w, run);
            && Dispatched(w, run) <= p.messages
            && (NoOverflows(w, run) ==> Dispatched(w, run) == p.messages)
            && (!Overlong(all) ==> NoOverflows(w, run))
            && (!s.core.link.closed ==> NoOverflows(w, run) && s.rx == p.rest && !p.bad)
  {
    hide WorldOk, Reachable, ValidRun, RunAll, Dispatched, NoOverflows, Overlong, Parse, BytesRead;
    ReachableOk(w);
    RunReassembly(w, run);
  }

  /** Why an event closes an open session: the peer is gone; a tick found it silent, or its queue full;
      a child's output or exit found the queue full; a frame that is not one; or a handler found the
      queue full. */
  predicate Cause(w: World, now: nat, e: Event) {
    match e
    case ReadEnd => true
    case HeartbeatTick(env) =>
      var l := w.core.link;
      || now >= l.lastRx + SESSION_IDLE_MS
      || (now >= l.lastTx + HEARTBEAT_IDLE_MS && l.pending + HEADER_SIZE + |PingText()| > MAX_WRITE_QUEUE)
      || (IsStalled(w.core.upload, now)
          && l.pending + 2 * HEADER_SIZE + |PingText()| + |ErrorText(Stalled, env.strerror)| > MAX_WRITE_QUEUE)
    case ChildExited(code, _) =>
      var text := ExitReply(w.core.proc.procId, code, w.core.proc.kill);
      w.core.link.pending + HEADER_SIZE + |text| > MAX_WRITE_QUEUE
    case ChildOutput(_, data, _) => w.core.link.pending + HEADER_SIZE + |data| > MAX_WRITE_QUEUE
    case ReadBytes(chunk, env) =>
      var p := Parse(w.rx + chunk);
      p.bad || ReceiveAll(w.core.(link := w.core.link.(lastRx := now)), p.messages, now, env).link.closed
    case _ => false
  }

  lemma OnlyCauses(w: World, now: nat, e: Event)
    requires CoreOk(w.core, now) && now < TWO_64
    requires !w.core.link.closed && !Overflows(w, e) && Step(w, now, e).core.link.closed
    ensures Cause(w, now, e)
  {
    hide Tick, Parse, ReceiveAll, MaybeFinalize, Abort, ProcAbort, ExitReply, EncodeMessage, PipeKind, LinkOk, ProcOk,
         UploadOk, PingText, ErrorText, IsStalled;
    if e.HeartbeatTick? {
      TickCauses(w, now, e.env);
    }
  }

  lemma TickCauses(w: World, now: nat, env: Env)
    requires CoreOk(w.core, now) && now < TWO_64
    requires !w.core.link.closed && Tick(w.core, now, env).link.closed
    ensures Cause(w, now, HeartbeatTick(env))
  {
    hide EncodeMessage, ProcOk, UploadOk, CheckProc, Abort, PingText, ErrorText, Elapsed, IsStalled;
    ElapsedExact(now, w.core.link.lastRx);
    ElapsedExact(now, w.core.link.lastTx);
    IdleNotStalled(now);
  }

  lemma IdleNotStalled(now: nat)
    ensures !IsStalled(IDLE, now)
  {
  }

  lemma {:induction false} ClosingEvent(w: World, run: seq<Timed>) returns (i: nat)
    requires WorldOk(w) && !w.core.link.closed && ValidRun(w, run)
    requires RunAll(w, run).core.link.closed && NoOverflows(w, run)
    ensures i < |run|
    ensures var before := RunAll(w, run[..i]);
            !before.core.link.closed && Cause(before, run[i].at, run[i].event)
    decreases |run|
  {
    hide WorldOk, Step, Enabled, Cause, Overflows, CoreOk;
    var s := Step(w, run[0].at, run[0].event);
    if s.core.link.closed {
      i := 0;
      LaterCore(w, run[0].at);
      OnlyCauses(w, run[0].at, run[0].event);
      assert run[..0] == [];
    } else {
      StepKeeps(w, run[0].at, run[0].event);
      var k := ClosingEvent(s, run[1..]);
      i := k + 1;
      assert run[..i][0] == run[0] && run[..i][1..] == run[1..][..k];
    }
  }

  lemma LaterCore(w: World, now: nat)
    requires WorldOk(w) && w.clock <= now
    ensures CoreOk(w.core, now)
  {
    hide First, LinkOk, ProcOk, UploadOk;
    Later(w.core, w.clock, now);
  }

  /** Every dispatched frame is counted, with its bytes. */
  lemma {:induction false} FramesCounted(w: World, run: seq<Timed>)
    requires WorldOk(w) && ValidRun(w, run)
    ensures var r := RunAll(w, run).core;
            && r.framesRx == w.core.framesRx + |Dispatched(w, run)|
            && r.bytesRx == w.core.bytesRx + WireSizes(Dispatched(w, run))
    decreases |run|
  {
    hide WorldOk, Step, Routed;
    if run != [] {
      var now, e := run[0].at, run[0].event;
      StepKeeps(w, now, e);
      StepCounts(w, now, e);
      var s := Step(w, now, e);
      FramesCounted(s, run[1..]);
      WireSizesAppend(Routed(w, e), Dispatched(s, run[1..]));
    }
  }

  lemma StepCounts(w: World, now: nat, e: Event)
    requires WorldOk(w) && w.clock <= now < TWO_64
    ensures var r := Step(w, now, e).core;
            && r.framesRx == w.core.framesRx + |Routed(w, e)|
            && r.bytesRx == w.core.bytesRx + WireSizes(Routed(w, e))
  {
    hide First, Parse, ReceiveAll, Callback, CoreOk;
    LaterCore(w, now);
    if e.ReadBytes? {
      ReceiveAllCounts(w.core.(link := w.core.link.(lastRx := now)), Parse(w.rx + e.chunk).messages, now, e.oracle);
    } else {
      CallbackLeaves(w.core, now, e);
    }
  }

  lemma {:induction false} WireSizesAppend(a: seq<Message>, b: seq<Message>)
    ensures WireSizes(a + b) == WireSizes(a) + WireSizes(b)
  {
    if a == [] {
      assert a + b == b;
    } else {
      assert (a + b)[1..] == a[1..] + b;
      WireSizesAppend(a[1..], b);
    }
  }

  /** A session whose stream is not overlong closes only for one of these causes. */
  lemma WhatCloses(w: World, run: seq<Timed>) returns (i: nat)
    requires Reachable(w) && !w.core.link.closed && ValidRun(w, run)
    requires RunAll(w, run).core.link.closed && !Overlong(w.rx + BytesRead(run))
    ensures i < |run|
    ensures var before := RunAll(w, run[..i]);
            !before.core.link.closed && Cause(before, run[i].at, run[i].event)
  {
    hide WorldOk, Reachable, ValidRun, RunAll, Dispatched, NoOverflows, Overlong, Parse, BytesRead, Cause;
    ReachableOk(w);
    ReachableReassembly(w, run);
    i := ClosingEvent(w, run);
  }
}
