/** tools/client_daemon.py encode_kv and spawn, and the two readers of its argument list:
    proc_build_args in src/proc.c and collect_argv in lua/ops/tool_run.lua. */
module Argv {
  import opened Bytes
  import opened Kv
  import opened KvLaws
  import opened Transfers
  import Frame
  import Lua

  type Items = seq<(bytes, bytes)>

  // ---- encode_kv ----

  function Line(item: (bytes, bytes)): bytes {
    item.0 + [EQ] + item.1
  }

  function ItemLines(items: Items): seq<bytes> {
    seq(|items|, i requires 0 <= i < |items| => Line(items[i]))
  }

  function Join(lines: seq<bytes>): bytes {
    if lines == [] then []
    else if |lines| == 1 then lines[0]
    else lines[0] + [LF] + Join(lines[1..])
  }

  function EncodeKv(items: Items): bytes {
    Join(ItemLines(items))
  }

  lemma {:induction false} JoinSnoc(lines: seq<bytes>, line: bytes)
    ensures Join(lines + [line]) == if lines == [] then line else Join(lines) + [LF] + line
  {
    if |lines| >= 1 {
      assert (lines + [line])[1..] == lines[1..] + [line];
      JoinSnoc(lines[1..], line);
    }
  }

  method EncodeItems(items: Items) returns (payload: bytes)
    ensures payload == EncodeKv(items)
  {
    var lines: seq<bytes> := [];
    for i := 0 to |items|
      invariant lines == ItemLines(items)[..i]
    {
      lines := lines + [items[i].0 + [EQ] + items[i].1];
    }
    payload := [];
    for i := 0 to |lines|
      invariant payload == Join(lines[..i])
    {
      assert lines[..i + 1] == lines[..i] + [lines[i]];
      JoinSnoc(lines[..i], lines[i]);
      payload := if i == 0 then lines[i] else payload + [LF] + lines[i];
    }
    assert lines[..|lines|] == lines == ItemLines(items);
  }

  /** A Python dict with distinct keys, whose keys and values each fit on one line. */
  predicate Encodable(items: Items) {
    && (forall i :: 0 <= i < |items| ==> IsKey(items[i].0) && Clean(items[i].0) && Clean(items[i].1))
    && (forall i, j :: 0 <= i < j < |items| ==> items[i].0 != items[j].0)
  }

  predicate PlainLine(l: bytes) {
    l != [] && Clean(l)
  }

  lemma {:induction false} JoinPlain(lines: seq<bytes>)
    requires forall i :: 0 <= i < |lines| ==> PlainLine(lines[i])
    ensures Free(Join(lines), {NUL}) && Free(Join(lines), {CR})
    ensures Lines(Join(lines)) == lines
  {
    hide Lines;
    if lines == [] {
      NoLine();
    } else {
      JoinPlain(lines[1..]);
      if |lines| == 1 {
        OneLine(lines[0]);
      } else {
        FirstLine(lines[0], Join(lines[1..]));
        assert lines == [lines[0]] + lines[1..];
      }
    }
  }

  lemma NoLine()
    ensures Lines([]) == []
  {
  }

  lemma OneLine(l: bytes)
    requires PlainLine(l)
    ensures Lines(l) == [l]
  {
    SpanIs(l, {LF}, |l|);
    assert l[..|l|] == l;
  }

  lemma FirstLine(l: bytes, rest: bytes)
    requires PlainLine(l)
    ensures Lines(l + [LF] + rest) == [l] + Lines(rest)
  {
    var b := l + [LF] + rest;
    SpanIs(b, {LF}, |l|);
    assert b[..|l|] == l && b[|l| + 1..] == rest;
  }

  function ValuesIn(items: Items, key: bytes): seq<bytes> {
    if items == [] then []
    else (if items[0].0 == key then [items[0].1] else []) + ValuesIn(items[1..], key)
  }

  lemma {:induction false} ValuesOfItems(items: Items, key: bytes)
    requires IsKey(key) && forall i :: 0 <= i < |items| ==> IsKey(items[i].0)
    ensures Values(ItemLines(items), key) == ValuesIn(items, key)
  {
    if items != [] {
      ValuesOfItems(items[1..], key);
      var item, l := items[0], Line(items[0]);
      assert ItemLines(items)[1..] == ItemLines(items[1..]);
      assert l[..|item.0|] == item.0 && l[|item.0|] == EQ && l[|item.0| + 1..] == item.1;
      EntryKeyed(l, key);
      EntryKeyed(l, item.0);
    }
  }

  lemma {:induction false} ValuesInNone(items: Items, key: bytes)
    requires forall i :: 0 <= i < |items| ==> items[i].0 != key
    ensures ValuesIn(items, key) == []
  {
    if items != [] {
      ValuesInNone(items[1..], key);
    }
  }

  lemma {:induction false} ValuesInOne(items: Items, k: nat)
    requires k < |items|
    requires forall i, j :: 0 <= i < j < |items| ==> items[i].0 != items[j].0
    ensures ValuesIn(items, items[k].0) == [items[k].1]
  {
    if k == 0 {
      ValuesInNone(items[1..], items[0].0);
    } else {
      ValuesInOne(items[1..], k - 1);
    }
  }

  lemma EncodedValues(items: Items, key: bytes)
    requires Encodable(items) && IsKey(key)
    ensures Free(EncodeKv(items), {CR})
    ensures ValuesOf(EncodeKv(items), key) == ValuesIn(items, key)
  {
    forall i | 0 <= i < |items| ensures PlainLine(ItemLines(items)[i]) {
    }
    JoinPlain(ItemLines(items));
    FreeSpan(EncodeKv(items), {NUL});
    assert CString(EncodeKv(items)) == EncodeKv(items);
    ValuesOfItems(items, key);
  }

  /** Both readers invert the encoder: a present key gives its value (the C reader only if it is
      not empty), an absent key gives nothing. */
  lemma EncodedPresent(items: Items, k: nat)
    requires Encodable(items) && k < |items|
    ensures Lookup(EncodeKv(items), items[k].0) == if items[k].1 == [] then None else Some(items[k].1)
    ensures Get(Lua.Request(EncodeKv(items)), items[k].0) == Some(items[k].1)
  {
    var key, v := items[k].0, items[k].1;
    EncodedValues(items, key);
    ValuesInOne(items, k);
    PlainReaders(EncodeKv(items), key);
    var vs: seq<bytes> := [v];
    assert vs[1..] == [];
    assert FirstNonEmpty(vs) == if v == [] then None else Some(v);
  }

  lemma EncodedAbsent(items: Items, key: bytes)
    requires Encodable(items) && IsKey(key)
    requires forall i :: 0 <= i < |items| ==> items[i].0 != key
    ensures Lookup(EncodeKv(items), key) == None
    ensures Get(Lua.Request(EncodeKv(items)), key) == None
  {
    EncodedValues(items, key);
    ValuesInNone(items, key);
    PlainReaders(EncodeKv(items), key);
  }

  /** A number field: at most 63 characters, read as strtoull does. */
  lemma NumberField(key: bytes, v: bytes)
    requires IsKey(key) && Clean(key) && Clean(v)
    ensures CopyU64(EncodeKv([(key, v)]), key) == if 0 < |v| < 64 then ParseU64(v) else None
  {
    hide EncodeKv, Lookup, ParseU64;
    EncodedPresent([(key, v)], 0);
  }

  // ---- Argument keys ----

  /** "argv" .. tostring(i), without wrap-around. */
  function ArgName(i: nat): (r: bytes)
    ensures IsKey(r) && Clean(r)
  {
    var d := Decimal(i);
    [97, 114, 103, 118] + d
  }

  /** "argv%u" of a size_t cast to unsigned int. */
  function ArgKey(i: nat): bytes {
    ArgName(i % TWO_32)
  }

  /** The keys are spelled "argv0", "argv1" and so on. */
  lemma ArgNameText(i: nat)
    ensures ArgName(i) == Ascii("argv") + Decimal(i)
  {
    assert Ascii("argv") == [97, 114, 103, 118];
  }

  lemma ArgNameInjective(i: nat, j: nat)
    requires ArgName(i) == ArgName(j)
    ensures i == j
  {
    assert ArgName(i)[4..] == Decimal(i) && ArgName(j)[4..] == Decimal(j);
    DecimalInjective(i, j);
  }

  function ArgNames(n: nat): set<bytes> {
    if n == 0 then {} else ArgNames(n - 1) + {ArgName(n - 1)}
  }

  lemma {:induction false} NotYetNamed(n: nat, m: nat)
    requires n <= m
    ensures ArgName(m) !in ArgNames(n)
  {
    hide ArgName;
    if n > 0 {
      NotYetNamed(n - 1, m);
      if ArgName(m) == ArgName(n - 1) {
        ArgNameInjective(m, n - 1);
      }
    }
  }

  lemma {:induction false} ArgNamesCount(n: nat)
    ensures |ArgNames(n)| == n
  {
    hide ArgName;
    if n > 0 {
      ArgNamesCount(n - 1);
      NotYetNamed(n - 1, n - 1);
    }
  }

  lemma {:induction false} ArgNamesWithin(n: nat, keys: set<bytes>)
    requires forall i :: 0 <= i < n ==> ArgName(i) in keys
    ensures ArgNames(n) <= keys
  {
    if n > 0 {
      ArgNamesWithin(n - 1, keys);
    }
  }

  lemma SubsetSize<T>(a: set<T>, b: set<T>)
    requires a <= b
    ensures |a| <= |b|
  {
    assert b == a + (b - a);
  }

  /** n distinct argument names need n keys. */
  lemma ArgNamesBound(n: nat, keys: set<bytes>)
    requires forall i :: 0 <= i < n ==> ArgName(i) in keys
    ensures n <= |keys|
  {
    ArgNamesCount(n);
    ArgNamesWithin(n, keys);
    SubsetSize(ArgNames(n), keys);
  }

  function LineKeys(lines: seq<bytes>): (r: set<bytes>)
    ensures |r| <= |lines|
  {
    if lines == [] then {} else {lines[0][..Span(lines[0], {EQ})]} + LineKeys(lines[1..])
  }

  lemma {:induction false} MatchInLineKeys(lines: seq<bytes>, key: bytes)
    requires IsKey(key) && FirstMatch(lines, key).Some?
    ensures key in LineKeys(lines)
  {
    if Matches(lines[0], key) {
      EntryKeyed(lines[0], key);
    } else {
      MatchInLineKeys(lines[1..], key);
    }
  }

  lemma {:induction false} LinesCount(b: bytes)
    ensures |Lines(b)| <= |b|
    decreases |b|
  {
    hide Span;
    if b != [] {
      var n := Span(b, {LF});
      if n < |b| {
        LinesCount(b[n + 1..]);
      }
    }
  }

  // ---- proc_build_args ----

  const ARG_CAP: nat := 512

  predicate HasArg(payload: bytes, i: nat) {
    Copy(payload, ArgKey(i), ARG_CAP).Some?
  }

  /** Why the unbounded counting loop ends: distinct keys are found on distinct lines. */
  lemma ArgCountBound(payload: bytes, n: nat)
    requires n <= TWO_32 && forall i :: 0 <= i < n ==> HasArg(payload, i)
    ensures n <= |Lines(CString(payload))| <= |payload|
  {
    hide Lines, FirstMatch, Span, LineKeys;
    var lines := Lines(CString(payload));
    LinesCount(CString(payload));
    forall i | 0 <= i < n ensures ArgName(i) in LineKeys(lines) {
      assert HasArg(payload, i);
      MatchInLineKeys(lines, ArgKey(i));
    }
    ArgNamesBound(n, LineKeys(lines));
  }

  /** The number of consecutive arguments from argvN on; no more of them than bytes. */
  function CountFrom(payload: bytes, n: nat): nat
    decreases |payload| + 1 - n
  {
    if n > |payload| || !HasArg(payload, n) then n else CountFrom(payload, n + 1)
  }

  lemma {:induction false} CountIs(payload: bytes, from: nat, n: nat)
    requires from <= n <= |payload|
    requires (forall i :: from <= i < n ==> HasArg(payload, i)) && !HasArg(payload, n)
    ensures CountFrom(payload, from) == n
    decreases n - from
  {
    if from < n {
      CountIs(payload, from + 1, n);
    }
  }

  function ArgAt(payload: bytes, i: nat): bytes {
    var v := Copy(payload, ArgKey(i), ARG_CAP);
    if v.Some? then v.value else []
  }

  /** The argument vector that proc_build_args makes. */
  function Args(payload: bytes, path: bytes): seq<bytes> {
    var n := CountFrom(payload, 0);
    if n <= 1 then [path] else seq(n, (i: nat) => ArgAt(payload, i))
  }

  method BuildArgs(payload: bytes, path: bytes) returns (args: seq<bytes>)
    requires |payload| <= Frame.MAX_FRAME_PAYLOAD
    ensures args == Args(payload, path)
  {
    hide Copy, ArgKey;
    var count := 0;
    while true
      invariant count <= |payload|
      invariant forall i :: 0 <= i < count ==> HasArg(payload, i)
      decreases |payload| - count
    {
      var value := KvCopy(payload, ArgKey(count), ARG_CAP);
      if value.None? {
        break;
      }
      assert HasArg(payload, count);
      ArgCountBound(payload, count + 1);
      count := count + 1;
    }
    CountIs(payload, 0, count);
    if count == 0 {
      count := 1;
    }
    if count == 1 {
      return [path];
    }
    var out := new bytes[count](_ => []);
    for i := 0 to count
      invariant forall j :: 0 <= j < i ==> out[j] == ArgAt(payload, j)
    {
      var value := KvCopy(payload, ArgKey(i), ARG_CAP);
      assert HasArg(payload, i);
      if value.None? {
        assert false; // the second pass never fails on lookup
      } else {
        out[i] := value.value;
      }
    }
    args := out[..];
  }

  // ---- collect_argv ----

  function LuaCountFrom(req: map<bytes, bytes>, n: nat): nat
    decreases |req.Keys| + 1 - n
  {
    if n > |req.Keys| || ArgName(n) !in req then n else LuaCountFrom(req, n + 1)
  }

  lemma {:induction false} LuaCountIs(req: map<bytes, bytes>, from: nat, n: nat)
    requires from <= n <= |req.Keys|
    requires (forall i :: from <= i < n ==> ArgName(i) in req) && ArgName(n) !in req
    ensures LuaCountFrom(req, from) == n
    decreases n - from
  {
    if from < n {
      LuaCountIs(req, from + 1, n);
    }
  }

  /** The argument vector that collect_argv makes. */
  function LuaArgs(req: map<bytes, bytes>, path: bytes): seq<bytes> {
    var n := LuaCountFrom(req, 0);
    if n == 0 then [path] else seq(n, (i: nat) => if ArgName(i) in req then req[ArgName(i)] else [])
  }

  method CollectArgv(req: map<bytes, bytes>, path: bytes) returns (argv: seq<bytes>)
    ensures argv == LuaArgs(req, path)
  {
    hide ArgName;
    argv := [];
    var i := 0;
    while true
      invariant |argv| == i && i <= |req.Keys|
      invariant forall j :: 0 <= j < i ==> ArgName(j) in req && argv[j] == req[ArgName(j)]
      decreases |req.Keys| - i
    {
      var key := ArgName(i);
      if key !in req {
        break;
      }
      ArgNamesBound(i + 1, req.Keys);
      argv := argv + [req[key]];
      i := i + 1;
    }
    LuaCountIs(req, 0, i);
    if |argv| == 0 {
      argv := [path];
    }
  }

  // ---- spawn: the client's list, read back ----

  function SpawnItems(path: bytes, timeoutMs: nat, idleTimeoutMs: nat, argv: seq<bytes>): Items {
    [(Ascii("path"), path), (Ascii("timeout_ms"), Decimal(timeoutMs)),
     (Ascii("idle_timeout_ms"), Decimal(idleTimeoutMs))]
    + seq(|argv|, i requires 0 <= i < |argv| => (ArgName(i), argv[i]))
  }

  predicate Word(s: string) {
    |s| > 0 && forall i :: 0 <= i < |s| ==> s[i] == '_' || 'a' <= s[i] <= 'z'
  }

  lemma WordIsKey(s: string)
    requires Word(s)
    ensures IsKey(Ascii(s)) && Clean(Ascii(s)) && Ascii(s)[0] == s[0] as int
  {
  }

  lemma FixedKeys()
    ensures var p, t, d := Ascii("path"), Ascii("timeout_ms"), Ascii("idle_timeout_ms");
            && IsKey(p) && IsKey(t) && IsKey(d) && Clean(p) && Clean(t) && Clean(d)
            && p[0] == 112 && t[0] == 116 && d[0] == 105
  {
    hide Ascii;
    WordIsKey("path");
    WordIsKey("timeout_ms");
    WordIsKey("idle_timeout_ms");
  }

  lemma SpawnItemsEncodable(path: bytes, timeoutMs: nat, idleTimeoutMs: nat, argv: seq<bytes>)
    requires Clean(path) && forall i :: 0 <= i < |argv| ==> Clean(argv[i])
    ensures Encodable(SpawnItems(path, timeoutMs, idleTimeoutMs, argv))
  {
    hide Ascii;
    var items := SpawnItems(path, timeoutMs, idleTimeoutMs, argv);
    FixedKeys();
    forall i | 0 <= i < |items|
      ensures IsKey(items[i].0) && Clean(items[i].0) && Clean(items[i].1)
    {
      assert i >= 3 ==> items[i] == (ArgName(i - 3), argv[i - 3]);
    }
    forall i, j | 0 <= i < j < |items| ensures items[i].0 != items[j].0 {
      assert j >= 3 ==> items[j].0 == ArgName(j - 3);
      if i >= 3 {
        assert items[i].0 == ArgName(i - 3);
        if items[i].0 == items[j].0 {
          ArgNameInjective(i - 3, j - 3);
        }
      }
    }
  }

  lemma SpawnLookup(path: bytes, timeoutMs: nat, idleTimeoutMs: nat, argv: seq<bytes>, i: nat)
    requires Clean(path) && forall i :: 0 <= i < |argv| ==> Clean(argv[i])
    ensures var payload := EncodeKv(SpawnItems(path, timeoutMs, idleTimeoutMs, argv));
            && Lookup(payload, ArgName(i)) == (if i < |argv| && argv[i] != [] then Some(argv[i]) else None)
            && Get(Lua.Request(payload), ArgName(i)) == (if i < |argv| then Some(argv[i]) else None)
  {
    hide Ascii, EncodeKv, Lookup;
    var items := SpawnItems(path, timeoutMs, idleTimeoutMs, argv);
    SpawnItemsEncodable(path, timeoutMs, idleTimeoutMs, argv);
    if i < |argv| {
      assert items[3 + i] == (ArgName(i), argv[i]);
      EncodedPresent(items, 3 + i);
    } else {
      FixedKeys();
      forall j | 0 <= j < |items| ensures items[j].0 != ArgName(i) {
        if j >= 3 {
          assert items[j].0 == ArgName(j - 3);
          if ArgName(j - 3) == ArgName(i) {
            ArgNameInjective(j - 3, i);
          }
        }
      }
      EncodedAbsent(items, ArgName(i));
    }
  }

  predicate UsableArg(arg: bytes) {
    0 < |arg| < ARG_CAP
  }

  /** How many leading arguments the C side takes: it stops at an empty or overlong one. */
  function Usable(argv: seq<bytes>): (n: nat)
    ensures n <= |argv|
    ensures forall i :: 0 <= i < n ==> UsableArg(argv[i])
    ensures n < |argv| ==> !UsableArg(argv[n])
  {
    if argv == [] || !UsableArg(argv[0]) then 0 else 1 + Usable(argv[1..])
  }

  /** The payload gives the usable arguments of argv, and nothing for the others. */
  predicate Gives(payload: bytes, argv: seq<bytes>) {
    forall i :: 0 <= i <= |argv| ==>
      Copy(payload, ArgKey(i), ARG_CAP)
      == if i < |argv| && UsableArg(argv[i]) then Some(argv[i]) else None
  }

  lemma SpawnGives(path: bytes, timeoutMs: nat, idleTimeoutMs: nat, argv: seq<bytes>)
    requires Clean(path) && forall i :: 0 <= i < |argv| ==> Clean(argv[i])
    requires |argv| < TWO_32
    ensures Gives(EncodeKv(SpawnItems(path, timeoutMs, idleTimeoutMs, argv)), argv)
  {
    hide EncodeKv, Lookup, ArgName, SpawnItems;
    var payload := EncodeKv(SpawnItems(path, timeoutMs, idleTimeoutMs, argv));
    forall i | 0 <= i <= |argv|
      ensures Copy(payload, ArgKey(i), ARG_CAP)
           == if i < |argv| && UsableArg(argv[i]) then Some(argv[i]) else None
    {
      SpawnLookup(path, timeoutMs, idleTimeoutMs, argv, i);
    }
  }

  lemma ArgsFromGiven(payload: bytes, path: bytes, argv: seq<bytes>)
    requires Gives(payload, argv) && |payload| <= Frame.MAX_FRAME_PAYLOAD
    ensures Args(payload, path) == if Usable(argv) <= 1 then [path] else argv[..Usable(argv)]
  {
    hide Copy, ArgKey;
    var k := Usable(argv);
    assert !HasArg(payload, k);
    if k <= TWO_32 {
      ArgCountBound(payload, k);
    } else {
      assert forall i :: 0 <= i < TWO_32 ==> HasArg(payload, i);
      ArgCountBound(payload, TWO_32);
    }
    CountIs(payload, 0, k);
  }

  predicate AllClean(argv: seq<bytes>) {
    forall i :: 0 <= i < |argv| ==> Clean(argv[i])
  }

  /** The payload of spawn. */
  function SpawnPayload(path: bytes, timeoutMs: nat, idleTimeoutMs: nat, argv: seq<bytes>): bytes {
    EncodeKv(SpawnItems(path, timeoutMs, idleTimeoutMs, argv))
  }

  /** What proc_handle_spawn takes from a payload: the path and the argument vector, or nothing. */
  function CSpawn(payload: bytes): Option<(bytes, seq<bytes>)> {
    match Copy(payload, PATH(), PATH_CAP)
    case None => None
    case Some(path) => Some((path, Args(payload, path)))
  }

  /** What tool.run takes from the same text. */
  function LuaSpawn(req: map<bytes, bytes>): Option<(bytes, seq<bytes>)> {
    if PATH() in req then Some((req[PATH()], LuaArgs(req, req[PATH()]))) else None
  }

  lemma {:induction false} JoinLength(lines: seq<bytes>)
    ensures |lines| <= |Join(lines)| + 1
  {
    if |lines| > 1 {
      JoinLength(lines[1..]);
    }
  }

  lemma ArgvNumber(path: bytes, timeoutMs: nat, idleTimeoutMs: nat, argv: seq<bytes>)
    ensures |argv| < |SpawnPayload(path, timeoutMs, idleTimeoutMs, argv)|
  {
    hide Join;
    JoinLength(ItemLines(SpawnItems(path, timeoutMs, idleTimeoutMs, argv)));
  }

  /** What the C side makes of any list of plain arguments: the leading usable ones, except that fewer
      than two of them are replaced by the path. */
  lemma SpawnArgs(path: bytes, timeoutMs: nat, idleTimeoutMs: nat, argv: seq<bytes>)
    requires Clean(path) && AllClean(argv)
    requires |SpawnPayload(path, timeoutMs, idleTimeoutMs, argv)| <= Frame.MAX_FRAME_PAYLOAD
    ensures Args(SpawnPayload(path, timeoutMs, idleTimeoutMs, argv), path)
         == if Usable(argv) <= 1 then [path] else argv[..Usable(argv)]
  {
    hide Args, EncodeKv, SpawnItems, Gives;
    ArgvNumber(path, timeoutMs, idleTimeoutMs, argv);
    SpawnGives(path, timeoutMs, idleTimeoutMs, argv);
    ArgsFromGiven(EncodeKv(SpawnItems(path, timeoutMs, idleTimeoutMs, argv)), path, argv);
  }

  lemma SpawnPath(path: bytes, timeoutMs: nat, idleTimeoutMs: nat, argv: seq<bytes>)
    requires Clean(path) && AllClean(argv)
    ensures var payload := SpawnPayload(path, timeoutMs, idleTimeoutMs, argv);
            && Copy(payload, PATH(), PATH_CAP) == (if UsableArg(path) then Some(path) else None)
            && Get(Lua.Request(payload), PATH()) == Some(path)
  {
    hide Ascii, EncodeKv, Lookup;
    SpawnItemsEncodable(path, timeoutMs, idleTimeoutMs, argv);
    EncodedPresent(SpawnItems(path, timeoutMs, idleTimeoutMs, argv), 0);
  }

  /** The list survives the C side. */
  predicate Survives(path: bytes, argv: seq<bytes>) {
    argv == [path] || (|argv| >= 2 && forall i :: 0 <= i < |argv| ==> UsableArg(argv[i]))
  }

  lemma ListRoundTrip(path: bytes, timeoutMs: nat, idleTimeoutMs: nat, argv: seq<bytes>)
    requires Clean(path) && AllClean(argv)
    requires |SpawnPayload(path, timeoutMs, idleTimeoutMs, argv)| <= Frame.MAX_FRAME_PAYLOAD
    ensures Args(SpawnPayload(path, timeoutMs, idleTimeoutMs, argv), path) == argv <==> Survives(path, argv)
  {
    hide Args, SpawnPayload;
    SpawnArgs(path, timeoutMs, idleTimeoutMs, argv);
    if Usable(argv) == |argv| {
      assert argv[..|argv|] == argv;
    }
  }

  // ---- No reader gives back a line end or a NUL ----

  lemma CStringFree(b: bytes)
    ensures Free(CString(b), {NUL})
  {
  }

  lemma {:induction false} LinesWithoutLf(b: bytes)
    ensures forall l <- Lines(b) :: Free(l, {LF})
    decreases |b|
  {
    hide Span;
    if b != [] {
      var n := Span(b, {LF});
      if n < |b| {
        LinesWithoutLf(b[n + 1..]);
      }
    }
  }

  lemma {:induction false} MatchClean(lines: seq<bytes>, key: bytes)
    requires forall l <- lines :: Free(l, {LF}) && Free(l, {NUL})
    ensures FirstMatch(lines, key).Some? ==> Clean(FirstMatch(lines, key).value)
  {
    if lines != [] {
      if Matches(lines[0], key) {
        var l, v := lines[0], lines[0][|key| + 1..];
        assert Free(l, {LF}) && Free(l, {NUL});
        forall i | 0 <= i < Span(v, {CR}) ensures v[i] !in {NUL, LF, CR} {
          assert v[i] == l[|key| + 1 + i];
        }
      } else {
        MatchClean(lines[1..], key);
      }
    }
  }

  lemma CopyClean(payload: bytes, key: bytes, cap: nat)
    ensures Copy(payload, key, cap).Some? ==> Clean(Copy(payload, key, cap).value)
  {
    hide Lines, FirstMatch, Clean, Span;
    var text := CString(payload);
    CStringFree(payload);
    LinesWithoutLf(text);
    LinesFree(text, NUL);
    MatchClean(Lines(text), key);
  }

  lemma ArgsClean(payload: bytes, path: bytes)
    requires Clean(path)
    ensures AllClean(Args(payload, path))
  {
    hide Copy, ArgKey, Clean, CountFrom;
    assert Clean([]) by { NothingClean(); }
    forall i: nat ensures Clean(ArgAt(payload, i)) {
      CopyClean(payload, ArgKey(i), ARG_CAP);
    }
  }

  lemma NothingClean()
    ensures Clean([])
  {
  }

  lemma {:induction false} RunsClean(b: bytes)
    requires Free(b, {NUL})
    ensures forall l <- Lua.Runs(b) :: Clean(l)
    decreases |b|
  {
    if b != [] {
      var n := Span(b, {CR, LF});
      RunsClean(if n == 0 then b[1..] else b[n..]);
    }
  }

  lemma {:induction false} TableClean(lines: seq<bytes>)
    requires forall l <- lines :: Clean(l)
    ensures forall k <- Lua.Table(lines) :: Clean(Lua.Table(lines)[k])
  {
    hide Clean;
    if lines != [] {
      var n := |lines| - 1;
      TableClean(lines[..n]);
      EntryClean(lines[n]);
    }
  }

  lemma EntryClean(line: bytes)
    requires Clean(line)
    ensures Lua.Entry(line).Some? ==> Clean(Lua.Entry(line).value.1)
  {
  }

  lemma RequestClean(payload: bytes, path: bytes)
    ensures var req := Lua.Request(payload);
            (forall k <- req :: Clean(req[k])) && (Clean(path) ==> AllClean(LuaArgs(req, path)))
  {
    hide Clean, LuaCountFrom, ArgName, Lua.Runs, Lua.Table, Span;
    CStringFree(payload);
    RunsClean(CString(payload));
    TableClean(Lua.Runs(CString(payload)));
    assert Clean([]) by { NothingClean(); }
  }

  // ---- The round trips ----

  /** For every path and every list, whatever bytes they hold, whose request fits a frame: the agent
      spawns exactly what the client asked for if and only if the path and the arguments hold no CR,
      LF or NUL, the path is not empty and below 512 bytes, and the list is just the path, or has two
      or more arguments, all of them non-empty and below 512 bytes. */
  lemma SpawnRoundTrip(path: bytes, timeoutMs: nat, idleTimeoutMs: nat, argv: seq<bytes>)
    requires |SpawnPayload(path, timeoutMs, idleTimeoutMs, argv)| <= Frame.MAX_FRAME_PAYLOAD
    ensures CSpawn(SpawnPayload(path, timeoutMs, idleTimeoutMs, argv)) == Some((path, argv))
       <==> Clean(path) && AllClean(argv) && UsableArg(path) && Survives(path, argv)
  {
    hide Args, SpawnPayload, Copy, Clean, Survives;
    var payload := SpawnPayload(path, timeoutMs, idleTimeoutMs, argv);
    if CSpawn(payload) == Some((path, argv)) {
      CopyClean(payload, PATH(), PATH_CAP);
      ArgsClean(payload, path);
    }
    if Clean(path) && AllClean(argv) {
      SpawnPath(path, timeoutMs, idleTimeoutMs, argv);
      ListRoundTrip(path, timeoutMs, idleTimeoutMs, argv);
    }
  }

  /** The Lua side gives back every list of plain arguments, empty and long ones included, and the
      path for the empty list. */
  lemma LuaKeeps(path: bytes, timeoutMs: nat, idleTimeoutMs: nat, argv: seq<bytes>)
    requires Clean(path) && AllClean(argv)
    ensures LuaSpawn(Lua.Request(SpawnPayload(path, timeoutMs, idleTimeoutMs, argv)))
         == Some((path, if argv == [] then [path] else argv))
  {
    hide EncodeKv, Lookup, ArgName, SpawnItems;
    var req := Lua.Request(SpawnPayload(path, timeoutMs, idleTimeoutMs, argv));
    SpawnPath(path, timeoutMs, idleTimeoutMs, argv);
    forall i | 0 <= i <= |argv|
      ensures Get(req, ArgName(i)) == if i < |argv| then Some(argv[i]) else None
    {
      SpawnLookup(path, timeoutMs, idleTimeoutMs, argv, i);
    }
    LuaFromGiven(req, path, argv);
  }

  /** For every path and every list: the Lua side gets what the client sent if and only if nothing in
      it holds a CR, LF or NUL and the list is not empty. */
  lemma LuaRoundTrip(path: bytes, timeoutMs: nat, idleTimeoutMs: nat, argv: seq<bytes>)
    ensures LuaSpawn(Lua.Request(SpawnPayload(path, timeoutMs, idleTimeoutMs, argv))) == Some((path, argv))
       <==> Clean(path) && AllClean(argv) && argv != []
  {
    hide LuaArgs, SpawnPayload, Clean, Lua.Request;
    var payload := SpawnPayload(path, timeoutMs, idleTimeoutMs, argv);
    if LuaSpawn(Lua.Request(payload)) == Some((path, argv)) {
      RequestClean(payload, path);
    }
    if Clean(path) && AllClean(argv) {
      LuaKeeps(path, timeoutMs, idleTimeoutMs, argv);
    }
  }

  /** On plain text the two sides agree exactly on the lists that survive the C side and on the empty
      list, given a path that the C side can take. */
  lemma SidesAgree(path: bytes, timeoutMs: nat, idleTimeoutMs: nat, argv: seq<bytes>)
    requires Clean(path) && AllClean(argv)
    requires |SpawnPayload(path, timeoutMs, idleTimeoutMs, argv)| <= Frame.MAX_FRAME_PAYLOAD
    ensures var payload := SpawnPayload(path, timeoutMs, idleTimeoutMs, argv);
            CSpawn(payload) == LuaSpawn(Lua.Request(payload))
            <==> UsableArg(path) && (argv == [] || Survives(path, argv))
  {
    hide Args, LuaArgs, SpawnPayload, Copy, Clean, Survives, Lua.Request;
    SpawnPath(path, timeoutMs, idleTimeoutMs, argv);
    LuaKeeps(path, timeoutMs, idleTimeoutMs, argv);
    ListRoundTrip(path, timeoutMs, idleTimeoutMs, argv);
    SpawnArgs(path, timeoutMs, idleTimeoutMs, argv);
  }

  lemma LuaFromGiven(req: map<bytes, bytes>, path: bytes, argv: seq<bytes>)
    requires forall i :: 0 <= i <= |argv| ==>
               Get(req, ArgName(i)) == if i < |argv| then Some(argv[i]) else None
    ensures LuaArgs(req, path) == if argv == [] then [path] else argv
  {
    hide ArgName;
    var n := |argv|;
    assert Get(req, ArgName(n)) == None;
    forall i | 0 <= i < n ensures ArgName(i) in req && req[ArgName(i)] == argv[i] {
      assert Get(req, ArgName(i)) == Some(argv[i]);
    }
    ArgNamesBound(n, req.Keys);
    LuaCountIs(req, 0, n);
  }
}
