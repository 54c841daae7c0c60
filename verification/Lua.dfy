/** lua/bootstrap.lua parse_kv: the second reader of the same payloads. */
module Lua {
  import opened Bytes
  import opened Kv

  /** string.gmatch(payload, "[^\r\n]+"): the maximal non-empty runs without CR or LF. */
  function Runs(b: bytes): seq<bytes>
    decreases |b|
  {
    if b == [] then []
    else
      var n := Span(b, {CR, LF});
      if n == 0 then Runs(b[1..]) else [b[..n]] + Runs(b[n..])
  }

  /** string.match(line, "^([^=]+)=(.*)$"). */
  function Entry(line: bytes): Option<(bytes, bytes)> {
    var n := Span(line, {EQ});
    if 0 < n < |line| then Some((line[..n], line[n + 1..])) else None
  }

  /** The table after the given lines, a later line overriding an earlier one. */
  function Table(lines: seq<bytes>): map<bytes, bytes> {
    if lines == [] then map[]
    else
      var t := Table(lines[..|lines| - 1]);
      match Entry(lines[|lines| - 1])
      case None => t
      case Some(kv) => t[kv.0 := kv.1]
  }

  /** lua_pushstring ends the payload at its first NUL. */
  function Request(payload: bytes): map<bytes, bytes> {
    Table(Runs(CString(payload)))
  }

  lemma RunsOf(b: bytes)
    requires b != []
    ensures var n := Span(b, {CR, LF}); Runs(b) == if n == 0 then Runs(b[1..]) else [b[..n]] + Runs(b[n..])
  {
    hide Span;
  }

  lemma RunsAt(b: bytes, at: nat)
    requires at < |b|
    ensures var n := Span(b[at..], {CR, LF});
            Runs(b[at..]) ==
            if n == 0 then Runs(b[at + 1..]) else [b[at..at + n]] + Runs(b[at + n..])
  {
    var n := Span(b[at..], {CR, LF});
    assert b[at..][..n] == b[at..at + n];
    assert b[at..][n..] == b[at + n..];
    assert b[at..][1..] == b[at + 1..];
  }

  lemma TableSnoc(lines: seq<bytes>, line: bytes)
    ensures Table(lines + [line]) ==
            match Entry(line)
            case None => Table(lines)
            case Some(kv) => Table(lines)[kv.0 := kv.1]
  {
    hide Entry;
    assert (lines + [line])[..|lines|] == lines;
  }

  method ParseKv(payload: bytes) returns (out: map<bytes, bytes>)
    ensures out == Request(payload)
  {
    hide Runs, Span, Table, Entry;
    var text := CString(payload);
    out := map[];
    NothingYet();
    var at := 0;
    ghost var done: seq<bytes> := [];
    assert text[0..] == text;
    while at < |text|
      invariant 0 <= at <= |text|
      invariant Runs(text) == done + Runs(text[at..])
      invariant out == Table(done)
      decreases |text| - at
    {
      var end := Scan(text, at, {CR, LF});
      RunsAt(text, at);
      if end == at {
        at := at + 1;
      } else {
        var line := text[at..end];
        var kv := Entry(line);
        if kv.Some? {
          out := out[kv.value.0 := kv.value.1];
        }
        TableSnoc(done, line);
        done := done + [line];
        at := end;
      }
    }
    assert text[at..] == [];
    NothingYet();
    assert done == Runs(text);
  }

  lemma NothingYet()
    ensures Runs([]) == [] && Table([]) == map[]
  {
  }
}

/** What the C reader and the Lua reader make of one payload. */
module KvLaws {
  import opened Bytes
  import opened Kv
  import Lua

  predicate Keyed(line: bytes, key: bytes) {
    |line| >= |key| + 1 && line[..|key|] == key && line[|key|] == EQ
  }

  /** The values given to key, in order, empty ones included. */
  function Values(lines: seq<bytes>, key: bytes): seq<bytes> {
    if lines == [] then []
    else (if Keyed(lines[0], key) then [lines[0][|key| + 1..]] else []) + Values(lines[1..], key)
  }

  function FirstNonEmpty(vs: seq<bytes>): Option<bytes> {
    if vs == [] then None else if vs[0] != [] then Some(vs[0]) else FirstNonEmpty(vs[1..])
  }

  function Last(vs: seq<bytes>): Option<bytes> {
    if vs == [] then None else Some(vs[|vs| - 1])
  }

  function Get(t: map<bytes, bytes>, key: bytes): Option<bytes> {
    if key in t then Some(t[key]) else None
  }

  predicate IsKey(key: bytes) {
    key != [] && Free(key, {EQ})
  }

  lemma FreeSpan(b: bytes, stops: set<byte>)
    requires Free(b, stops)
    ensures Span(b, stops) == |b|
  {
    SpanIs(b, stops, |b|);
  }

  /** The values of key that the C reader can see: it looks at the start of a line only, wants at
      least one byte after the '=', and takes what stands before a CR. */
  function HeadValues(lines: seq<bytes>, key: bytes): seq<bytes> {
    if lines == [] then []
    else (if Matches(lines[0], key) then [ValueIn(lines[0], |key| + 1)] else []) + HeadValues(lines[1..], key)
  }

  function Head(vs: seq<bytes>): Option<bytes> {
    if vs == [] then None else Some(vs[0])
  }

  /** The C reader answers the first value it can see. */
  lemma {:induction false} CReadsFirst(lines: seq<bytes>, key: bytes)
    ensures FirstMatch(lines, key) == Head(HeadValues(lines, key))
  {
    hide Matches;
    if lines != [] {
      CReadsFirst(lines[1..], key);
    }
  }

  /** Without CR that is the first non-empty value. */
  lemma {:induction false} CReadsNonEmpty(lines: seq<bytes>, key: bytes)
    requires forall l <- lines :: Free(l, {CR})
    ensures FirstMatch(lines, key) == FirstNonEmpty(Values(lines, key))
  {
    if lines != [] {
      CReadsNonEmpty(lines[1..], key);
      var l := lines[0];
      if Keyed(l, key) {
        var v := l[|key| + 1..];
        assert Free(l, {CR});
        assert Free(v, {CR}) by { forall i | 0 <= i < |v| ensures v[i] != CR { assert v[i] == l[|key| + 1 + i]; } }
        FreeSpan(v, {CR});
        assert v[..|v|] == v;
        assert ([v] + Values(lines[1..], key))[1..] == Values(lines[1..], key);
      } else {
        assert [] + Values(lines[1..], key) == Values(lines[1..], key);
      }
    }
  }

  lemma EntryKeyed(line: bytes, key: bytes)
    requires IsKey(key)
    ensures Keyed(line, key) <==> Lua.Entry(line).Some? && Lua.Entry(line).value.0 == key
    ensures Keyed(line, key) ==> Lua.Entry(line).value.1 == line[|key| + 1..]
  {
    if Keyed(line, key) {
      forall i | 0 <= i < |key| ensures line[i] != EQ { assert line[i] == line[..|key|][i]; }
      SpanIs(line, {EQ}, |key|);
    }
  }

  /** A line that starts with '=' is no entry to the Lua reader. */
  lemma {:induction false} NoEmptyKey(lines: seq<bytes>)
    ensures [] !in Lua.Table(lines)
  {
    if lines != [] {
      NoEmptyKey(lines[..|lines| - 1]);
    }
  }

  lemma {:induction false} ValuesAppend(a: seq<bytes>, b: seq<bytes>, key: bytes)
    ensures Values(a + b, key) == Values(a, key) + Values(b, key)
  {
    if a == [] {
      assert a + b == b;
    } else {
      assert (a + b)[1..] == a[1..] + b;
      ValuesAppend(a[1..], b, key);
    }
  }

  /** The Lua reader answers the last value, even an empty one. */
  lemma {:induction false} LuaReadsLast(lines: seq<bytes>, key: bytes)
    requires IsKey(key)
    ensures Get(Lua.Table(lines), key) == Last(Values(lines, key))
  {
    if lines != [] {
      var n := |lines| - 1;
      var front, l := lines[..n], lines[n];
      assert lines == front + [l];
      LuaReadsLast(front, key);
      ValuesAppend(front, [l], key);
      EntryKeyed(l, key);
      var one: seq<bytes> := [l];
      assert one[1..] == [];
      assert Values(one, key) == if Keyed(l, key) then [l[|key| + 1..]] else [];
    }
  }

  /** Without CR both readers see the same values: the Lua runs are the non-empty lines. */
  lemma {:induction false} SameValues(b: bytes, key: bytes)
    requires Free(b, {CR})
    ensures Values(Lua.Runs(b), key) == Values(Lines(b), key)
    decreases |b|
  {
    hide Keyed;
    if b != [] {
      var n := Span(b, {LF});
      SpanIs(b, {CR, LF}, n);
      if n == |b| {
        assert b[n..] == [];
        assert Lua.Runs(b) == [b[..n]] + [];
        assert Lines(b) == [b[..n]];
      } else {
        SameValues(b[n + 1..], key);
        LinesStep(b, key, n);
        RunsStep(b, key, n);
      }
    }
  }

  lemma LinesStep(b: bytes, key: bytes, n: nat)
    requires n < |b| && n == Span(b, {LF})
    ensures Values(Lines(b), key) == Values([b[..n]], key) + Values(Lines(b[n + 1..]), key)
  {
    hide Span, Keyed, Values;
    ValuesAppend([b[..n]], Lines(b[n + 1..]), key);
  }

  lemma RunsStep(b: bytes, key: bytes, n: nat)
    requires n < |b| && n == Span(b, {CR, LF})
    ensures Values(Lua.Runs(b), key) == Values([b[..n]], key) + Values(Lua.Runs(b[n + 1..]), key)
  {
    assert b[n..][1..] == b[n + 1..];
    assert b[n..][0] in {CR, LF};
    assert Lua.Runs(b[n..]) == Lua.Runs(b[n + 1..]);
    if n == 0 {
      assert b[..0] == [];
      assert Values([[]], key) == [] + Values([[]][1..], key);
    } else {
      ValuesAppend([b[..n]], Lua.Runs(b[n..]), key);
    }
  }

  lemma {:induction false} LinesFree(b: bytes, c: byte)
    requires Free(b, {c})
    ensures forall l <- Lines(b) :: Free(l, {c})
    decreases |b|
  {
    if b != [] {
      var n := Span(b, {LF});
      if n < |b| {
        LinesFree(b[n + 1..], c);
      }
    }
  }

  function ValuesOf(payload: bytes, key: bytes): seq<bytes> {
    Values(Lines(CString(payload)), key)
  }

  /** A line end splits the runs. */
  lemma {:induction false} RunsSplit(a: bytes, c: byte, b: bytes)
    requires c in {CR, LF}
    ensures Lua.Runs(a + [c] + b) == Lua.Runs(a) + Lua.Runs(b)
    decreases |a|
  {
    hide Lua.Runs, Span;
    var whole := a + [c] + b;
    if a == [] {
      Lua.NothingYet();
      assert whole[0] == c && whole[1..] == b;
      SpanIs(whole, {CR, LF}, 0);
      Lua.RunsOf(whole);
    } else {
      var n := Span(a, {CR, LF});
      SpanIs(whole, {CR, LF}, n);
      Lua.RunsOf(whole);
      Lua.RunsOf(a);
      if n == 0 {
        assert whole[1..] == a[1..] + [c] + b;
        RunsSplit(a[1..], c, b);
      } else {
        assert whole[..n] == a[..n] && whole[n..] == a[n..] + [c] + b;
        RunsSplit(a[n..], c, b);
      }
    }
  }

  /** What the C reader sees at the start of a line is the first run of that line to the Lua reader. */
  lemma HeadIsRun(l: bytes, key: bytes)
    requires IsKey(key) && Clean(key) && Free(l, {LF}) && Matches(l, key)
    ensures ValueIn(l, |key| + 1) in Values(Lua.Runs(l), key)
  {
    var k, n := |key| + 1, Span(l, {CR, LF});
    var v := l[k..];
    forall i | 0 <= i < k ensures l[i] !in {CR, LF} {
      assert i < |key| ==> l[i] == l[..|key|][i] == key[i];
    }
    assert n >= k;
    forall i | 0 <= i < n - k ensures v[i] !in {CR} { assert v[i] == l[k + i]; }
    assert n < |l| ==> v[n - k] == l[n];
    SpanIs(v, {CR}, n - k);
    var run := l[..n];
    assert run[..|key|] == l[..|key|] && run[k..] == v[..n - k];
    assert Lua.Runs(l) == [run] + Lua.Runs(l[n..]);
    ValuesAppend([run], Lua.Runs(l[n..]), key);
  }

  /** Every value the C reader can see is one the Lua reader sees. */
  lemma {:induction false} HeadsAreRuns(b: bytes, key: bytes)
    requires IsKey(key) && Clean(key)
    ensures forall v <- HeadValues(Lines(b), key) :: v in Values(Lua.Runs(b), key)
    decreases |b|
  {
    hide Matches, Keyed, ValueIn;
    if b != [] {
      var n := Span(b, {LF});
      var l := b[..n];
      if Matches(l, key) {
        HeadIsRun(l, key);
      }
      if n == |b| {
        assert l == b;
        assert Lines(b) == [l];
        var one: seq<bytes> := [l];
        assert one[1..] == [];
      } else {
        var rest := b[n + 1..];
        assert b == l + [b[n]] + rest;
        RunsSplit(l, b[n], rest);
        ValuesAppend(Lua.Runs(l), Lua.Runs(rest), key);
        HeadsAreRuns(rest, key);
        assert Lines(b)[1..] == Lines(rest);
      }
    }
  }

  function CValues(payload: bytes, key: bytes): seq<bytes> {
    HeadValues(Lines(CString(payload)), key)
  }

  function LuaValues(payload: bytes, key: bytes): seq<bytes> {
    Values(Lua.Runs(CString(payload)), key)
  }

  /** Both readers, on any payload: the C reader answers the first of the values it can see, the Lua
      reader the last of those it can see, and it can see all that the C reader can. */
  lemma Readers(payload: bytes, key: bytes)
    requires IsKey(key) && Clean(key)
    ensures Lookup(payload, key) == Head(CValues(payload, key))
    ensures Get(Lua.Request(payload), key) == Last(LuaValues(payload, key))
    ensures forall v <- CValues(payload, key) :: v in LuaValues(payload, key)
  {
    var text := CString(payload);
    CReadsFirst(Lines(text), key);
    LuaReadsLast(Lua.Runs(text), key);
    HeadsAreRuns(text, key);
  }

  /** For any payload and any key that fits a line, the two readers agree exactly when the Lua reader
      sees no value, or the C reader sees one and the first it sees is the last the Lua reader sees. */
  lemma Agreement(payload: bytes, key: bytes)
    requires IsKey(key) && Clean(key)
    ensures var cs, vs := CValues(payload, key), LuaValues(payload, key);
            Lookup(payload, key) == Get(Lua.Request(payload), key)
            <==> vs == [] || (cs != [] && cs[0] == vs[|vs| - 1])
  {
    hide Lookup, Lua.Request, CValues, LuaValues;
    Readers(payload, key);
    var cs := CValues(payload, key);
    if cs != [] {
      assert cs[0] in LuaValues(payload, key);
    }
  }

  /** Without CR both readers go by the same list: the first non-empty value, and the last. */
  lemma PlainReaders(payload: bytes, key: bytes)
    requires Free(payload, {CR}) && IsKey(key)
    ensures Lookup(payload, key) == FirstNonEmpty(ValuesOf(payload, key))
    ensures Get(Lua.Request(payload), key) == Last(ValuesOf(payload, key))
  {
    var text := CString(payload);
    assert Free(text, {CR});
    LinesFree(text, CR);
    CReadsNonEmpty(Lines(text), key);
    LuaReadsLast(Lua.Runs(text), key);
    SameValues(text, key);
  }

  /** Where they part: an empty value is no value to the C reader and a value to the Lua reader. */
  lemma EmptyValueDisagreement(key: bytes)
    requires IsKey(key) && Clean(key)
    ensures Lookup(key + [EQ], key) == None
    ensures Get(Lua.Request(key + [EQ]), key) == Some([])
  {
    var line := key + [EQ];
    SpanIs(line, {NUL}, |line|);
    SpanIs(line, {LF}, |line|);
    assert line[..|line|] == line;
    var lines: seq<bytes> := [line];
    assert Lines(CString(line)) == lines;
    assert lines[1..] == [] && line[..|key|] == key && line[|key| + 1..] == [];
    assert Values(lines, key) == [[]];
    PlainReaders(line, key);
    var none: seq<bytes> := [[]];
    assert none[1..] == [];
  }
}
