/** The relay table over whole runs of the agent: sessions come, open and close relays, and go. */
module Relays {
  import opened Bytes
  import opened Portfwd

  /** Sessions are numbered as they are accepted; live ones are not yet freed. */
  datatype Agent = Agent(table: Table, sessions: nat, live: set<nat>)

  datatype Event =
    | SessionAccepted
    | RelayOpened(owner: nat, ok: bool)
    | RelayClosed(id: u32)
    | SessionFreed(owner: nat)

  /** A relay is opened by an op of a session that is still there; any session may close any id. */
  predicate Enabled(a: Agent, e: Event) {
    match e
    case SessionAccepted => true
    case RelayOpened(owner, _) => owner in a.live
    case RelayClosed(_) => true
    case SessionFreed(owner) => owner in a.live
  }

  function Step(a: Agent, e: Event): Agent {
    match e
    case SessionAccepted => a.(sessions := a.sessions + 1, live := a.live + {a.sessions})
    case RelayOpened(owner, ok) => a.(table := Open(a.table, owner, ok))
    case RelayClosed(id) => a.(table := Close(a.table, id).0)
    case SessionFreed(owner) => a.(table := CloseOwner(a.table, owner), live := a.live - {owner})
  }

  function RunAll(a: Agent, run: seq<Event>): Agent
    decreases |run|
  {
    if run == [] then a else RunAll(Step(a, run[0]), run[1..])
  }

  predicate ValidRun(a: Agent, run: seq<Event>)
    decreases |run|
  {
    run == [] || (Enabled(a, run[0]) && ValidRun(Step(a, run[0]), run[1..]))
  }

  const START: Agent := Agent(Table([], 1, 0, map[], map[]), 0, {})

  function Owned(entries: seq<Entry>, owner: nat): seq<Entry> {
    if entries == [] then []
    else
      var front, e := Owned(entries[..|entries| - 1], owner), entries[|entries| - 1];
      if e.owner == owner then front + [e] else front
  }

  function Counter(m: map<nat, nat>, k: nat): nat {
    if k in m then m[k] else 0
  }

  /** Newest first, each id the wrapped serial of its open, owners alive. */
  predicate ListOk(entries: seq<Entry>, tried: nat, live: set<nat>) {
    && (forall i :: 0 <= i < |entries| ==>
          entries[i].owner in live && entries[i].serial <= tried && entries[i].id == Wrap(entries[i].serial))
    && (forall i, j :: 0 <= i < j < |entries| ==> entries[i].serial > entries[j].serial)
  }

  /** Every live session has as many relays as opens minus closes. */
  predicate AccountOk(t: Table, live: set<nat>) {
    forall o :: o in live ==> Counter(t.opens, o) == Counter(t.closes, o) + |Owned(t.entries, o)|
  }

  predicate TableOk(a: Agent) {
    var t := a.table;
    && t.next == Wrap(t.tried + 1)
    && ListOk(t.entries, t.tried, a.live)
    && (forall o :: o in a.live ==> o < a.sessions)
    && (forall o :: o in t.opens ==> o < a.sessions)
    && (forall o :: o in t.closes ==> o < a.sessions)
    && AccountOk(t, a.live)
  }

  // ---- Owned relays under the list operations ----

  lemma {:induction false} OwnedAppend(x: seq<Entry>, y: seq<Entry>, owner: nat)
    ensures Owned(x + y, owner) == Owned(x, owner) + Owned(y, owner)
    decreases |y|
  {
    if y == [] {
      assert x + y == x;
    } else {
      var n := |y| - 1;
      assert (x + y)[..|x + y| - 1] == x + y[..n];
      OwnedAppend(x, y[..n], owner);
    }
  }

  lemma OwnedOne(e: Entry, owner: nat)
    ensures Owned([e], owner) == if e.owner == owner then [e] else []
  {
    assert [e][..0] == [];
    assert Owned([], owner) == [];
  }

  lemma OwnedWithout(entries: seq<Entry>, n: nat, owner: nat)
    requires n < |entries|
    ensures |Owned(Without(entries, n), owner)|
         == |Owned(entries, owner)| - if entries[n].owner == owner then 1 else 0
  {
    assert entries == entries[..n] + ([entries[n]] + entries[n + 1..]);
    OwnedAppend(entries[..n], [entries[n]] + entries[n + 1..], owner);
    OwnedAppend([entries[n]], entries[n + 1..], owner);
    OwnedAppend(entries[..n], entries[n + 1..], owner);
    OwnedOne(entries[n], owner);
  }

  /** Closing a session removes exactly its relays: every other session keeps the same relays in the
      same order. */
  lemma {:induction false} CloseOwnerExact(entries: seq<Entry>, gone: nat, owner: nat)
    ensures Owned(NotOwned(entries, gone), owner) == if owner == gone then [] else Owned(entries, owner)
  {
    if entries != [] {
      var n := |entries| - 1;
      CloseOwnerExact(entries[..n], gone, owner);
      var front := NotOwned(entries[..n], gone);
      OwnedAppend(front, [entries[n]], owner);
      OwnedOne(entries[n], owner);
    }
  }

  /** What stays is a part of the list in its order. */
  predicate Within(small: seq<Entry>, big: seq<Entry>) {
    && (forall i :: 0 <= i < |small| ==> small[i] in big)
    && ((forall i, j :: 0 <= i < j < |big| ==> big[i].serial > big[j].serial) ==>
          forall i, j :: 0 <= i < j < |small| ==> small[i].serial > small[j].serial)
  }

  lemma {:induction false} NotOwnedWithin(entries: seq<Entry>, gone: nat)
    ensures Within(NotOwned(entries, gone), entries)
    ensures forall e <- NotOwned(entries, gone) :: e.owner != gone
  {
    if entries != [] {
      var n := |entries| - 1;
      NotOwnedWithin(entries[..n], gone);
      var front := NotOwned(entries[..n], gone);
      if forall i, j :: 0 <= i < j < |entries| ==> entries[i].serial > entries[j].serial {
        assert forall i, j :: 0 <= i < j < n ==> entries[..n][i].serial > entries[..n][j].serial;
        forall i | 0 <= i < |front| ensures front[i].serial > entries[n].serial {
          assert front[i] in entries[..n];
        }
      }
    }
  }

  // ---- Every step keeps the table ----

  lemma ListCons(entries: seq<Entry>, tried: nat, live: set<nat>, e: Entry)
    requires ListOk(entries, tried, live) && e == Entry(Wrap(tried + 1), e.owner, tried + 1) && e.owner in live
    ensures ListOk([e] + entries, tried + 1, live)
  {
  }

  lemma ListLater(entries: seq<Entry>, tried: nat, live: set<nat>)
    requires ListOk(entries, tried, live)
    ensures ListOk(entries, tried + 1, live)
  {
  }

  lemma ListWithout(entries: seq<Entry>, tried: nat, live: set<nat>, n: nat)
    requires ListOk(entries, tried, live) && n < |entries|
    ensures ListOk(Without(entries, n), tried, live)
  {
    var less := Without(entries, n);
    forall i | 0 <= i < |less|
      ensures less[i].owner in live && less[i].serial <= tried && less[i].id == Wrap(less[i].serial)
    {
      assert less[i] == if i < n then entries[i] else entries[i + 1];
    }
    forall i, j | 0 <= i < j < |less| ensures less[i].serial > less[j].serial {
      assert less[i] == if i < n then entries[i] else entries[i + 1];
      assert less[j] == if j < n then entries[j] else entries[j + 1];
    }
  }

  lemma OpenKeeps(a: Agent, owner: nat, ok: bool)
    requires TableOk(a) && owner in a.live
    ensures TableOk(Step(a, RelayOpened(owner, ok)))
  {
    hide ListOk, Owned, Wrap;
    var t := a.table;
    var b := Step(a, RelayOpened(owner, ok));
    WrapNext(t.tried + 1);
    ListLater(t.entries, t.tried, a.live);
    if ok {
      var e := Entry(t.next, owner, t.tried + 1);
      ListCons(t.entries, t.tried, a.live, e);
      forall o | o in a.live
        ensures Counter(b.table.opens, o) == Counter(b.table.closes, o) + |Owned(b.table.entries, o)|
      {
        OwnedAppend([e], t.entries, o);
        OwnedOne(e, o);
      }
    }
  }

  lemma WrapNext(n: nat)
    ensures Wrap(Wrap(n) + 1) == Wrap(n + 1)
  {
  }

  lemma CloseKeeps(a: Agent, id: u32)
    requires TableOk(a)
    ensures TableOk(Step(a, RelayClosed(id)))
  {
    hide ListOk, Owned, Without;
    var t := a.table;
    var n := FirstWith(t.entries, id);
    if n < |t.entries| {
      var b := Step(a, RelayClosed(id));
      ListWithout(t.entries, t.tried, a.live, n);
      OwnerLives(t.entries, t.tried, a.live, n);
      forall o | o in a.live
        ensures Counter(b.table.opens, o) == Counter(b.table.closes, o) + |Owned(b.table.entries, o)|
      {
        OwnedWithout(t.entries, n, o);
      }
    }
  }

  lemma OwnerLives(entries: seq<Entry>, tried: nat, live: set<nat>, n: nat)
    requires ListOk(entries, tried, live) && n < |entries|
    ensures entries[n].owner in live
  {
  }

  lemma ListNotOwned(entries: seq<Entry>, tried: nat, live: set<nat>, gone: nat)
    requires ListOk(entries, tried, live)
    ensures ListOk(NotOwned(entries, gone), tried, live - {gone})
  {
    NotOwnedWithin(entries, gone);
    var less := NotOwned(entries, gone);
    forall i | 0 <= i < |less|
      ensures less[i].owner in live - {gone} && less[i].serial <= tried && less[i].id == Wrap(less[i].serial)
    {
      assert less[i] in entries && less[i] in less;
    }
  }

  lemma FreeKeeps(a: Agent, owner: nat)
    requires TableOk(a) && owner in a.live
    ensures TableOk(Step(a, SessionFreed(owner)))
  {
    hide ListOk, Owned, NotOwned;
    var t := a.table;
    var b := Step(a, SessionFreed(owner));
    ListNotOwned(t.entries, t.tried, a.live, owner);
    forall o | o in b.live
      ensures Counter(t.opens, o) == Counter(t.closes, o) + |Owned(b.table.entries, o)|
    {
      CloseOwnerExact(t.entries, owner, o);
    }
  }

  lemma AcceptKeeps(a: Agent)
    requires TableOk(a)
    ensures TableOk(Step(a, SessionAccepted))
  {
    OwnedNone(a.table.entries, a.sessions);
  }

  lemma {:induction false} OwnedNone(entries: seq<Entry>, owner: nat)
    ensures (forall e <- entries :: e.owner != owner) ==> Owned(entries, owner) == []
  {
    if entries != [] {
      OwnedNone(entries[..|entries| - 1], owner);
    }
  }

  lemma StepKeeps(a: Agent, e: Event)
    requires TableOk(a) && Enabled(a, e)
    ensures TableOk(Step(a, e))
  {
    hide TableOk;
    match e
    case SessionAccepted => AcceptKeeps(a);
    case RelayOpened(owner, ok) => OpenKeeps(a, owner, ok);
    case RelayClosed(id) => CloseKeeps(a, id);
    case SessionFreed(owner) => FreeKeeps(a, owner);
  }

  lemma {:induction false} RunKeeps(a: Agent, run: seq<Event>)
    requires TableOk(a) && ValidRun(a, run)
    ensures TableOk(RunAll(a, run))
    decreases |run|
  {
    hide TableOk, Step, Enabled;
    if run != [] {
      StepKeeps(a, run[0]);
      RunKeeps(Step(a, run[0]), run[1..]);
    }
  }

  /** After any run: every relay in the list belongs to a session that is not freed, and a live
      session has exactly as many relays as it opened and did not close. */
  lemma RelaysBelongToLiveSessions(run: seq<Event>)
    requires ValidRun(START, run)
    ensures var a := RunAll(START, run);
            && (forall e <- a.table.entries :: e.owner in a.live)
            && (forall o <- a.live ::
                  Counter(a.table.opens, o) - Counter(a.table.closes, o) == |Owned(a.table.entries, o)|)
  {
    assert TableOk(START);
    RunKeeps(START, run);
    var a := RunAll(START, run);
    forall e <- a.table.entries ensures e.owner in a.live {
      var i :| 0 <= i < |a.table.entries| && a.table.entries[i] == e;
    }
  }

  lemma WrapEqual(m: nat, n: nat)
    requires m > n
    ensures Wrap(m) == Wrap(n) <==> (m - n) % TWO_32 == 0
  {
  }

  /** Two relays in the list share an id exactly when their opens are a multiple of 2^32 apart; so all
      ids are distinct as long as every relay in the list is among the last 2^32 opens tried. */
  lemma IdsDistinct(run: seq<Event>, i: nat, j: nat)
    requires ValidRun(START, run) && i < j < |RunAll(START, run).table.entries|
    ensures var t := RunAll(START, run).table;
            var x, y := t.entries[i], t.entries[j];
            && x.serial > y.serial
            && (x.id == y.id <==> (x.serial - y.serial) % TWO_32 == 0)
            && (t.tried - y.serial < TWO_32 ==> x.id != y.id)
  {
    assert TableOk(START);
    RunKeeps(START, run);
    var t := RunAll(START, run).table;
    WrapEqual(t.entries[i].serial, t.entries[j].serial);
  }

  /** Closing an id after any run succeeds if and only if a listed relay has it. Then the newest relay with
      the id goes and the others stay in order; and no relay with the id is left, as long as every listed
      relay is among the last 2^32 opens tried. */
  lemma CloseExactly(run: seq<Event>, id: u32) returns (n: nat)
    requires ValidRun(START, run)
    ensures var t := RunAll(START, run).table;
            var (after, found) := Close(t, id);
            && (found <==> exists e <- t.entries :: e.id == id)
            && (!found ==> after == t)
            && (found ==>
                  && n < |t.entries| && t.entries[n].id == id && after.entries == t.entries[..n] + t.entries[n + 1..]
                  && (forall i :: 0 <= i < |t.entries| && t.entries[i].id == id ==>
                        t.entries[i].serial <= t.entries[n].serial)
                  && ((forall e <- t.entries :: t.tried - e.serial < TWO_32) ==> forall e <- after.entries :: e.id != id))
  {
    hide RunAll, ValidRun;
    var t := RunAll(START, run).table;
    n := FirstWith(t.entries, id);
    if n < |t.entries| {
      forall i | 0 <= i < |t.entries| && i != n
        ensures t.entries[i].id == id ==>
                  t.entries[i].serial <= t.entries[n].serial && t.tried - t.entries[i].serial >= TWO_32
      {
        if i > n {
          IdsDistinct(run, n, i);
        }
      }
    }
  }

  lemma RunOne(a: Agent, run: seq<Event>, i: nat)
    requires i <= |run|
    ensures RunAll(a, run[i..]) == if i == |run| then a else RunAll(Step(a, run[i]), run[i + 1..])
  {
    hide Step;
    if i < |run| {
      assert run[i..][0] == run[i] && run[i..][1..] == run[i + 1..];
    }
  }

  /** Any run of the agent, done in place on the linked list: the list is the table of the run, and no
      listener that is still open belongs to a freed session. */
  method Replay(run: seq<Event>) returns (engine: Engine)
    requires ValidRun(START, run)
    ensures fresh(engine) && engine.Valid() && engine.Contents() == RunAll(START, run).table
    ensures forall r <- engine.repr :: !r.closing ==> r.entry.owner in RunAll(START, run).live
  {
    hide RunAll, ValidRun, Open, Close, CloseOwner;
    engine := new Engine();
    ghost var a := START;
    assert run[0..] == run;
    for i := 0 to |run|
      invariant fresh(engine) && fresh(engine.repr) && engine.Valid() && engine.Contents() == a.table
      invariant RunAll(a, run[i..]) == RunAll(START, run)
    {
      RunOne(a, run, i);
      match run[i] {
        case SessionAccepted =>
        case RelayOpened(owner, ok) => var _ := engine.OpenRelay(owner, ok);
        case RelayClosed(id) => var _ := engine.CloseById(id);
        case SessionFreed(owner) => engine.CloseSession(owner);
      }
      a := Step(a, run[i]);
    }
    RunOne(a, run, |run|);
    RelaysBelongToLiveSessions(run);
    forall r <- engine.repr | !r.closing ensures r.entry.owner in a.live {
      var i :| 0 <= i < |engine.list| && engine.list[i] == r;
      assert engine.Contents().entries[i] == r.entry;
    }
  }
}
