/** src/portfwd.c: the two directions of one relayed connection. */
module RelayConn {
  import opened Bytes

  const MAX_PENDING: nat := 262144

  /** One direction: the pending counter, libuv's queue, and history: the bytes read from the source,
      the bytes written to the destination, and whether a write failed. */
  datatype Flow = Flow(pending: nat, inflight: seq<bytes>, input: bytes, output: bytes, broken: bool)

  datatype Conn = Conn(toOutbound: Flow, toInbound: Flow, closing: bool)

  datatype Direction = Outbound | Inbound

  const IDLE: Flow := Flow(0, [], [], [], false)
  const FRESH: Conn := Conn(IDLE, IDLE, false)

  function FlowOf(c: Conn, d: Direction): Flow {
    if d == Outbound then c.toOutbound else c.toInbound
  }

  function WithFlow(c: Conn, d: Direction, f: Flow): Conn {
    if d == Outbound then c.(toOutbound := f) else c.(toInbound := f)
  }

  // ---- On values ----

  /** relay_forward of bytes just read; accepted says whether uv_write takes the buffer. */
  function Forward(c: Conn, d: Direction, data: bytes, accepted: bool): Conn {
    var f := FlowOf(c, d);
    var read := f.(input := f.input + data);
    if c.closing || data == [] then WithFlow(c, d, read)
    else if f.pending + |data| > MAX_PENDING || !accepted then WithFlow(c, d, read).(closing := true)
    else WithFlow(c, d, read.(pending := f.pending + |data|, inflight := f.inflight + [data]))
  }

  /** relay_write_cb for the oldest buffer of a direction. */
  function Written(c: Conn, d: Direction, ok: bool): Conn
    requires FlowOf(c, d).inflight != []
  {
    var f := FlowOf(c, d);
    var buf := f.inflight[0];
    var left := if f.pending >= |buf| then f.pending - |buf| else f.pending;
    var g := f.(pending := left, inflight := f.inflight[1..]);
    if ok then WithFlow(c, d, g.(output := f.output + buf))
    else WithFlow(c, d, g.(broken := true)).(closing := true)
  }

  // ---- In place ----

  class Relayed {
    var pendingToOutbound: nat
    var pendingToInbound: nat
    var closing: bool
    var queueOutbound: seq<bytes>
    var queueInbound: seq<bytes>
    ghost var readOutbound: bytes
    ghost var readInbound: bytes
    ghost var sentOutbound: bytes
    ghost var sentInbound: bytes
    ghost var brokenOutbound: bool
    ghost var brokenInbound: bool

    ghost function State(): Conn
      reads this
    {
      Conn(Flow(pendingToOutbound, queueOutbound, readOutbound, sentOutbound, brokenOutbound),
           Flow(pendingToInbound, queueInbound, readInbound, sentInbound, brokenInbound), closing)
    }

    constructor ()
      ensures State() == FRESH
    {
      pendingToOutbound, pendingToInbound, closing := 0, 0, false;
      queueOutbound, queueInbound := [], [];
      readOutbound, readInbound, sentOutbound, sentInbound := [], [], [], [];
      brokenOutbound, brokenInbound := false, false;
    }

    method RelayForward(d: Direction, data: bytes, accepted: bool)
      modifies this
      ensures State() == Forward(old(State()), d, data, accepted)
    {
      if d == Outbound {
        readOutbound := readOutbound + data;
      } else {
        readInbound := readInbound + data;
      }
      if closing || |data| == 0 {
        return;
      }
      var pending := if d == Outbound then pendingToOutbound else pendingToInbound;
      if pending + |data| > MAX_PENDING {
        closing := true;
        return;
      }
      if !accepted {
        closing := true;
        return;
      }
      if d == Outbound {
        pendingToOutbound := pendingToOutbound + |data|;
        queueOutbound := queueOutbound + [data];
      } else {
        pendingToInbound := pendingToInbound + |data|;
        queueInbound := queueInbound + [data];
      }
    }

    method RelayWriteCb(d: Direction, ok: bool)
      requires if d == Outbound then queueOutbound != [] else queueInbound != []
      modifies this
      ensures State() == Written(old(State()), d, ok)
    {
      if d == Outbound {
        var n := |queueOutbound[0]|;
        if pendingToOutbound >= n {
          pendingToOutbound := pendingToOutbound - n;
        }
        if ok { sentOutbound := sentOutbound + queueOutbound[0]; } else { brokenOutbound := true; }
        queueOutbound := queueOutbound[1..];
      } else {
        var n := |queueInbound[0]|;
        if pendingToInbound >= n {
          pendingToInbound := pendingToInbound - n;
        }
        if ok { sentInbound := sentInbound + queueInbound[0]; } else { brokenInbound := true; }
        queueInbound := queueInbound[1..];
      }
      if !ok {
        closing := true;
      }
    }
  }

  // ---- Whole runs ----

  datatype Event =
    | DataRead(direction: Direction, data: bytes, accepted: bool)
    | WriteEnded(direction: Direction, ok: bool)
    | SourceEnded

  /** Writes of one direction complete in order, and none succeeds after one failed. */
  predicate Enabled(c: Conn, e: Event) {
    match e
    case DataRead(_, _, _) => true
    case WriteEnded(d, ok) => FlowOf(c, d).inflight != [] && (ok ==> !FlowOf(c, d).broken)
    case SourceEnded => true
  }

  function Step(c: Conn, e: Event): Conn {
    match e
    case DataRead(d, data, accepted) => Forward(c, d, data, accepted)
    case WriteEnded(d, ok) => if FlowOf(c, d).inflight == [] then c else Written(c, d, ok)
    case SourceEnded => c.(closing := true)
  }

  predicate ValidRun(c: Conn, run: seq<Event>)
    decreases |run|
  {
    run == [] || (Enabled(c, run[0]) && ValidRun(Step(c, run[0]), run[1..]))
  }

  function RunAll(c: Conn, run: seq<Event>): Conn
    decreases |run|
  {
    if run == [] then c else RunAll(Step(c, run[0]), run[1..])
  }

  predicate FlowOk(f: Flow, closing: bool) {
    && f.pending == Sum(f.inflight) <= MAX_PENDING
    && f.output <= f.input
    && (!f.broken ==> f.output + Concat(f.inflight) <= f.input)
    && (!closing ==> !f.broken && f.output + Concat(f.inflight) == f.input)
  }

  predicate ConnOk(c: Conn) {
    FlowOk(c.toOutbound, c.closing) && FlowOk(c.toInbound, c.closing)
  }

  lemma QueueOne(f: Flow, data: bytes)
    ensures Sum(f.inflight + [data]) == Sum(f.inflight) + |data|
    ensures f.output + Concat(f.inflight + [data]) == (f.output + Concat(f.inflight)) + data
  {
    var one: seq<bytes> := [data];
    assert one[1..] == [];
    SumAppend(f.inflight, one);
    ConcatAppend(f.inflight, one);
    assert Concat(one) == data;
  }

  lemma ForwardKeeps(c: Conn, d: Direction, data: bytes, accepted: bool)
    requires ConnOk(c)
    ensures ConnOk(Forward(c, d, data, accepted))
  {
    var f := FlowOf(c, d);
    QueueOne(f, data);
    assert f.output <= f.input + data;
    assert !f.broken ==> f.output + Concat(f.inflight) <= f.input + data;
    assert data == [] ==> f.input + data == f.input;
  }

  lemma WrittenKeeps(c: Conn, d: Direction, ok: bool)
    requires ConnOk(c) && FlowOf(c, d).inflight != [] && (ok ==> !FlowOf(c, d).broken)
    ensures ConnOk(Written(c, d, ok))
    ensures FlowOf(Written(c, d, ok), d).pending == FlowOf(c, d).pending - |FlowOf(c, d).inflight[0]|
  {
    var f := FlowOf(c, d);
    var buf, rest := f.inflight[0], Concat(f.inflight[1..]);
    assert f.output + Concat(f.inflight) == (f.output + buf) + rest;
    if !f.broken {
      assert f.output + buf <= (f.output + buf) + rest;
    }
  }

  lemma {:induction false} RunKeeps(c: Conn, run: seq<Event>)
    requires ConnOk(c) && ValidRun(c, run)
    ensures ConnOk(RunAll(c, run))
    decreases |run|
  {
    hide ConnOk, Forward, Written;
    if run != [] {
      var e := run[0];
      match e {
        case DataRead(d, data, accepted) => ForwardKeeps(c, d, data, accepted);
        case WriteEnded(d, ok) => WrittenKeeps(c, d, ok);
        case SourceEnded => ClosingKeeps(c);
      }
      RunKeeps(Step(c, e), run[1..]);
    }
  }

  lemma ClosingKeeps(c: Conn)
    requires ConnOk(c)
    ensures ConnOk(c.(closing := true))
  {
  }

  /** After any run, in each direction: the counter is the sum of the buffers in flight and within
      262144 bytes, what came out is a prefix of what went in, and while the connection is not
      closing nothing is lost: output and queue together are the whole input. */
  lemma RelayFaithful(run: seq<Event>, d: Direction)
    requires ValidRun(FRESH, run)
    ensures var c := RunAll(FRESH, run);
            var f := FlowOf(c, d);
            && f.pending == Sum(f.inflight) <= MAX_PENDING
            && f.output <= f.input
            && (!c.closing ==> f.output + Concat(f.inflight) == f.input)
  {
    RunKeeps(FRESH, run);
  }

  /** What makes a connection close: data that does not fit or that uv_write refuses, a failed write, the
      end of either side. */
  predicate Breaks(c: Conn, e: Event) {
    match e
    case DataRead(d, data, accepted) => data != [] && (FlowOf(c, d).pending + |data| > MAX_PENDING || !accepted)
    case WriteEnded(d, ok) => FlowOf(c, d).inflight != [] && !ok
    case SourceEnded => true
  }

  predicate Broken(c: Conn, run: seq<Event>)
    decreases |run|
  {
    run != [] && (Breaks(c, run[0]) || Broken(Step(c, run[0]), run[1..]))
  }

  lemma {:induction false} ClosesIfBroken(c: Conn, run: seq<Event>)
    requires ValidRun(c, run)
    ensures RunAll(c, run).closing <==> c.closing || Broken(c, run)
    decreases |run|
  {
    if run != [] {
      ClosesIfBroken(Step(c, run[0]), run[1..]);
    }
  }

  /** A connection is closing if and only if the run holds one of these causes. */
  lemma ClosingExactly(run: seq<Event>)
    requires ValidRun(FRESH, run)
    ensures RunAll(FRESH, run).closing <==> Broken(FRESH, run)
  {
    ClosesIfBroken(FRESH, run);
  }
}
