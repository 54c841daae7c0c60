/** Octets, concatenation and decimal text as printf("%u") / printf("%llu") produce it. */
module Bytes {

  type byte = x: int | 0 <= x < 256
  type bytes = seq<byte>
  type u32 = x: int | 0 <= x < 0x1_0000_0000

  datatype Option<+T> = None | Some(value: T)

  const NUL: byte := 0
  const LF: byte := 10
  const CR: byte := 13
  const PLUS: byte := 43
  const MINUS: byte := 45
  const EQ: byte := 61

  const TWO_32: int := 0x1_0000_0000
  const TWO_64: int := 0x1_0000_0000_0000_0000

  function Ascii(s: string): (r: bytes)
    ensures |r| == |s|
  {
    seq(|s|, i requires 0 <= i < |s| => s[i] as int % 256)
  }

  function Min(a: int, b: int): int {
    if a <= b then a else b
  }

  function Concat(parts: seq<bytes>): bytes {
    if parts == [] then [] else parts[0] + Concat(parts[1..])
  }

  function Sum(parts: seq<bytes>): nat {
    if parts == [] then 0 else |parts[0]| + Sum(parts[1..])
  }

  lemma {:induction false} ConcatAppend(a: seq<bytes>, b: seq<bytes>)
    ensures Concat(a + b) == Concat(a) + Concat(b)
  {
    if a == [] {
      assert a + b == b;
    } else {
      assert (a + b)[1..] == a[1..] + b;
      ConcatAppend(a[1..], b);
    }
  }

  lemma {:induction false} SumAppend(a: seq<bytes>, b: seq<bytes>)
    ensures Sum(a + b) == Sum(a) + Sum(b)
  {
    if a == [] {
      assert a + b == b;
    } else {
      assert (a + b)[1..] == a[1..] + b;
      SumAppend(a[1..], b);
    }
  }

  // ---- Decimal text ----

  function Decimal(n: nat): (r: bytes)
    ensures |r| >= 1
    ensures forall i :: 0 <= i < |r| ==> 48 <= r[i] <= 57
  {
    if n < 10 then [48 + n] else Decimal(n / 10) + [48 + n % 10]
  }

  predicate IsDigits(b: bytes) {
    forall i :: 0 <= i < |b| ==> 48 <= b[i] <= 57
  }

  function DigitsValue(b: bytes): nat
    requires IsDigits(b)
  {
    if b == [] then 0 else 10 * DigitsValue(b[..|b| - 1]) + (b[|b| - 1] - 48)
  }

  /** isspace in the C locale. */
  predicate IsSpace(b: byte) {
    b == 32 || 9 <= b <= 13
  }

  function Unspaced(b: bytes): bytes {
    if b != [] && IsSpace(b[0]) then Unspaced(b[1..]) else b
  }

  /** strtoull with its end and errno checks: white space, a sign, digits to the end of the text, a
      magnitude of 64 bits; a negative number is taken modulo 2^64. */
  function ParseU64(b: bytes): Option<nat> {
    ParseSigned(Unspaced(b))
  }

  function ParseSigned(t: bytes): Option<nat> {
    var digits := if t != [] && (t[0] == PLUS || t[0] == MINUS) then t[1..] else t;
    if digits == [] || !IsDigits(digits) || DigitsValue(digits) >= TWO_64 then None
    else if t[0] == MINUS then Some((TWO_64 - DigitsValue(digits)) % TWO_64)
    else Some(DigitsValue(digits))
  }

  const SPACES: set<byte> := {9, 10, 11, 12, 13, 32}

  lemma {:induction false} UnspacedAfter(spaces: bytes, rest: bytes)
    requires (forall i :: 0 <= i < |spaces| ==> spaces[i] in SPACES) && (rest == [] || rest[0] !in SPACES)
    ensures Unspaced(spaces + rest) == rest
  {
    if spaces == [] {
      assert spaces + rest == rest;
    } else {
      assert (spaces + rest)[0] == spaces[0] && (spaces + rest)[1..] == spaces[1..] + rest;
      UnspacedAfter(spaces[1..], rest);
    }
  }

  /** The texts that strtoull accepts, and their values. */
  lemma ParseForms(spaces: bytes, sign: bytes, digits: bytes)
    requires forall i :: 0 <= i < |spaces| ==> spaces[i] in SPACES
    requires (sign == [] || sign == [43] || sign == [45]) && digits != [] && IsDigits(digits)
    ensures ParseU64(spaces + sign + digits) ==
            if DigitsValue(digits) >= TWO_64 then None
            else if sign == [45] then Some((TWO_64 - DigitsValue(digits)) % TWO_64)
            else Some(DigitsValue(digits))
  {
    hide Unspaced, DigitsValue;
    var t := sign + digits;
    assert spaces + sign + digits == spaces + t;
    assert t[0] == if sign == [] then digits[0] else sign[0];
    UnspacedAfter(spaces, t);
    if sign != [] {
      assert t[1..] == digits;
    } else {
      assert t == digits;
    }
  }

  lemma {:induction false} UnspacedRest(b: bytes)
    ensures |Unspaced(b)| <= |b| && b[|b| - |Unspaced(b)|..] == Unspaced(b)
    ensures forall i :: 0 <= i < |b| - |Unspaced(b)| ==> b[i] in SPACES
  {
    if b != [] && IsSpace(b[0]) {
      UnspacedRest(b[1..]);
    }
  }

  /** It accepts no others. */
  lemma ParsedForm(b: bytes) returns (spaces: bytes, sign: bytes, digits: bytes)
    requires ParseU64(b).Some?
    ensures b == spaces + sign + digits && forall i :: 0 <= i < |spaces| ==> spaces[i] in SPACES
    ensures (sign == [] || sign == [43] || sign == [45]) && digits != []
    ensures forall i :: 0 <= i < |digits| ==> '0' as int <= digits[i] <= '9' as int
  {
    hide Unspaced, DigitsValue, ParseSigned, SPACES;
    UnspacedRest(b);
    var t := Unspaced(b);
    spaces := b[..|b| - |t|];
    sign, digits := SignedForm(t);
    assert b == spaces + t == spaces + (sign + digits);
  }

  lemma SignedForm(t: bytes) returns (sign: bytes, digits: bytes)
    requires ParseSigned(t).Some?
    ensures t == sign + digits && (sign == [] || sign == [43] || sign == [45]) && digits != []
    ensures forall i :: 0 <= i < |digits| ==> '0' as int <= digits[i] <= '9' as int
  {
    hide DigitsValue;
    sign := if t[0] == PLUS || t[0] == MINUS then t[..1] else [];
    digits := t[|sign|..];
  }

  lemma {:induction false} DecimalValue(n: nat)
    ensures DigitsValue(Decimal(n)) == n
  {
    if n >= 10 {
      DecimalValue(n / 10);
      assert Decimal(n)[..|Decimal(n)| - 1] == Decimal(n / 10);
    }
  }

  /** printf then strtoull is the identity on 64-bit values. */
  lemma ParseDecimal(n: nat)
    requires n < TWO_64
    ensures ParseU64(Decimal(n)) == Some(n)
  {
    DecimalValue(n);
  }

  lemma DecimalInjective(m: nat, n: nat)
    requires Decimal(m) == Decimal(n)
    ensures m == n
  {
    DecimalValue(m);
    DecimalValue(n);
  }

  /** A 64-bit value prints as at most 20 digits, so it always fits the 63 characters that the
      key/value reader keeps for a number. */
  lemma {:induction false} DecimalLength(n: nat, k: nat)
    requires n < Pow10(k) && k >= 1
    ensures |Decimal(n)| <= k
    decreases k
  {
    if n >= 10 {
      DecimalLength(n / 10, k - 1);
    }
  }

  function Pow10(k: nat): nat {
    if k == 0 then 1 else 10 * Pow10(k - 1)
  }

  lemma DecimalU64Fits(n: nat)
    requires n < TWO_64
    ensures |Decimal(n)| <= 20
  {
    assert Pow10(5) == 100000;
    assert Pow10(10) == 100000 * 100000;
    assert Pow10(15) == 100000 * 100000 * 100000;
    assert Pow10(20) == 100000 * 100000 * 100000 * 100000;
    DecimalLength(n, 20);
  }
}
