/** The "key=value" line payloads: the C reader of src/transfer.c and src/proc.c, the Lua reader of
    lua/bootstrap.lua, and the encoder of tools/client_daemon.py. */
module Kv {
  import opened Bytes

  /** strcspn: the length of the longest prefix free of the given bytes. */
  function Span(b: bytes, stops: set<byte>): (n: nat)
    ensures n <= |b|
    ensures forall i :: 0 <= i < n ==> b[i] !in stops
    ensures n < |b| ==> b[n] in stops
  {
    if b == [] || b[0] in stops then 0 else 1 + Span(b[1..], stops)
  }

  lemma SpanIs(b: bytes, stops: set<byte>, n: nat)
    requires n <= |b|
    requires forall i :: 0 <= i < n ==> b[i] !in stops
    requires n == |b| || b[n] in stops
    ensures Span(b, stops) == n
  {
  }

  predicate Free(b: bytes, stops: set<byte>) {
    forall i :: 0 <= i < |b| ==> b[i] !in stops
  }

  /** Text without line ends and NUL, which a payload line can carry unchanged. */
  predicate Clean(b: bytes) {
    Free(b, {NUL, LF, CR})
  }

  function CString(b: bytes): bytes {
    b[..Span(b, {NUL})]
  }

  /** The lines of a text; a final line feed ends the last line and starts no other. */
  function Lines(b: bytes): seq<bytes>
    decreases |b|
  {
    if b == [] then []
    else
      var n := Span(b, {LF});
      [b[..n]] + if n == |b| then [] else Lines(b[n + 1..])
  }

  // ---- The C reader ----

  predicate Matches(line: bytes, key: bytes) {
    |line| > |key| + 1 && line[..|key|] == key && line[|key|] == EQ
  }

  function FirstMatch(lines: seq<bytes>, key: bytes): Option<bytes> {
    if lines == [] then None
    else if Matches(lines[0], key) then
      var v := lines[0][|key| + 1..];
      Some(v[..Span(v, {CR})])
    else FirstMatch(lines[1..], key)
  }

  function Lookup(payload: bytes, key: bytes): Option<bytes> {
    FirstMatch(Lines(CString(payload)), key)
  }

  /** The value, if it is there and fits a buffer of cap bytes with its NUL. */
  function Copy(payload: bytes, key: bytes, cap: nat): Option<bytes> {
    match Lookup(payload, key)
    case None => None
    case Some(v) => if |v| + 1 > cap then None else Some(v)
  }

  function CopyU64(payload: bytes, key: bytes): Option<nat> {
    match Copy(payload, key, 64)
    case None => None
    case Some(v) => ParseU64(v)
  }

  function CopyU64Or(payload: bytes, key: bytes, default: nat): nat {
    match CopyU64(payload, key)
    case None => default
    case Some(n) => n
  }

  method Scan(b: bytes, from: nat, stops: set<byte>) returns (n: nat)
    requires from <= |b|
    ensures n == from + Span(b[from..], stops)
  {
    n := from;
    while n < |b| && b[n] !in stops
      invariant from <= n <= |b|
      invariant forall i :: from <= i < n ==> b[i] !in stops
    {
      n := n + 1;
    }
    SpanIs(b[from..], stops, n - from);
  }

  lemma LinesAt(text: bytes, line: nat, lineEnd: nat)
    requires line < |text| && lineEnd == line + Span(text[line..], {LF})
    ensures Lines(text[line..]) == [text[line..lineEnd]] + RestAfter(text, lineEnd)
  {
    var n := lineEnd - line;
    assert text[line..][..n] == text[line..lineEnd];
    if lineEnd < |text| {
      assert text[line..][n + 1..] == text[lineEnd + 1..];
    }
  }

  lemma MatchAt(text: bytes, line: nat, lineEnd: nat, key: bytes)
    requires line <= lineEnd <= |text|
    ensures Matches(text[line..lineEnd], key) <==> MatchesAt(text, line, lineEnd, key)
    ensures MatchesAt(text, line, lineEnd, key) ==> line + |key| + 1 <= lineEnd
  {
    if lineEnd - line > |key| + 1 {
      assert text[line..lineEnd][..|key|] == text[line..line + |key|];
    }
  }

  lemma ValueAt(text: bytes, line: nat, lineEnd: nat, k: nat)
    requires line + k <= lineEnd <= |text| && lineEnd == line + Span(text[line..], {LF})
    ensures ValueIn(text[line..lineEnd], k) == ValueFrom(text, line + k)
  {
    var v, w := text[line..lineEnd][k..], text[line + k..];
    var n := Span(v, {CR});
    forall i | 0 <= i < |v| ensures v[i] == w[i] != LF {
      assert v[i] == text[line..][k + i];
    }
    if line + k + n < |text| {
      assert w[n] == text[line..][k + n];
    }
    SpanIs(w, {CR, LF}, n);
    assert v[..n] == w[..n];
  }

  lemma FirstMatchCons(l: bytes, ls: seq<bytes>, key: bytes)
    ensures FirstMatch([l] + ls, key) ==
            if Matches(l, key) then Some(ValueIn(l, |key| + 1))
            else FirstMatch(ls, key)
  {
    hide Matches, Span;
    assert ([l] + ls)[1..] == ls;
  }

  lemma NoMatch(key: bytes)
    ensures FirstMatch([], key) == None
    ensures FirstMatch(Lines([]), key) == None
  {
  }

  predicate MatchesAt(text: bytes, line: nat, lineEnd: nat, key: bytes)
    requires line <= lineEnd <= |text|
  {
    && lineEnd - line > |key| + 1
    && text[line..line + |key|] == key
    && text[line + |key|] == EQ
  }

  function RestAfter(text: bytes, lineEnd: nat): seq<bytes>
    requires lineEnd <= |text|
  {
    if lineEnd == |text| then [] else Lines(text[lineEnd + 1..])
  }

  /** The value as the caller cuts it out of the whole text. */
  function ValueFrom(text: bytes, at: nat): bytes
    requires at <= |text|
  {
    text[at..][..Span(text[at..], {CR, LF})]
  }

  function ValueIn(l: bytes, k: nat): bytes
    requires k <= |l|
  {
    l[k..][..Span(l[k..], {CR})]
  }

  /** What one turn of the line loop settles. */
  lemma LookupStep(text: bytes, line: nat, lineEnd: nat, key: bytes)
    requires line < |text| && lineEnd == line + Span(text[line..], {LF})
    ensures FirstMatch(Lines(text[line..]), key) ==
            if MatchesAt(text, line, lineEnd, key) then Some(ValueFrom(text, line + |key| + 1))
            else FirstMatch(RestAfter(text, lineEnd), key)
  {
    hide Lines, FirstMatch, Span, Matches, MatchesAt, RestAfter, ValueFrom, ValueIn;
    LinesAt(text, line, lineEnd);
    FirstMatchCons(text[line..lineEnd], RestAfter(text, lineEnd), key);
    MatchAt(text, line, lineEnd, key);
    if MatchesAt(text, line, lineEnd, key) {
      ValueAt(text, line, lineEnd, |key| + 1);
    }
  }

  /** kv_value: the position of the value in the payload. */
  method KvValue(payload: bytes, key: bytes) returns (r: Option<nat>)
    ensures var text := CString(payload);
            match r
            case None => Lookup(payload, key) == None
            case Some(at) =>
              at <= |text| && Lookup(payload, key) == Some(ValueFrom(text, at))
  {
    hide Lines, FirstMatch, Span, ValueFrom;
    var end := Scan(payload, 0, {NUL});
    assert payload[0..] == payload;
    var text := payload[..end];
    var line := 0;
    assert text[0..] == text;
    while line < |text|
      invariant 0 <= line <= |text|
      invariant FirstMatch(Lines(text), key) == FirstMatch(Lines(text[line..]), key)
    {
      var lineEnd := Scan(text, line, {LF});
      LookupStep(text, line, lineEnd, key);
      if MatchesAt(text, line, lineEnd, key) {
        return Some(line + |key| + 1);
      }
      if lineEnd == |text| {
        NoMatch(key);
        return None;
      }
      line := lineEnd + 1;
    }
    assert text[line..] == [];
    NoMatch(key);
    return None;
  }

  /** kv_copy: the value in the caller's buffer, or failure when it is missing or too long. */
  method KvCopy(payload: bytes, key: bytes, cap: nat) returns (dst: Option<bytes>)
    ensures dst == Copy(payload, key, cap)
  {
    var value := KvValue(payload, key);
    if value.None? {
      return None;
    }
    var text := payload[..Span(payload, {NUL})];
    var end := Scan(text, value.value, {CR, LF});
    assert text[value.value..end] == text[value.value..][..end - value.value];
    if end - value.value + 1 > cap {
      return None;
    }
    return Some(text[value.value..end]);
  }
}
