/** src/frame.c: the 14-byte frame header, written into and read from byte buffers. */
module Frame {
  import opened Bytes

  const HEADER_SIZE: nat := 14
  const MAX_FRAME_PAYLOAD: nat := 65536
  const MAGIC: bytes := [82, 88, 83, 72]

  // Frame types (src/frame.h).
  const HELLO: byte := 1
  const ACK: byte := 2
  const ERROR: byte := 3
  const OP: byte := 10
  const OP_RESULT: byte := 11
  const PUT_BEGIN: byte := 20
  const PUT_CHUNK: byte := 21
  const PUT_END: byte := 22
  const GET_BEGIN: byte := 30
  const GET_CHUNK: byte := 31
  const GET_END: byte := 32
  const PROC_SPAWN: byte := 40
  const STDOUT: byte := 42
  const STDERR: byte := 43
  const EXIT: byte := 44
  const KILL: byte := 45
  const PING: byte := 50
  const PONG: byte := 51

  datatype Header = Header(kind: byte, flags: byte, reqId: u32, length: u32)

  datatype Status = NeedMore | Bad | Decoded(header: Header)

  predicate ValidHeader(h: Header) {
    h.length <= MAX_FRAME_PAYLOAD && h.kind != 0
  }

  function U32le(n: u32): bytes {
    [n % 256, n / 256 % 256, n / 65536 % 256, n / 16777216]
  }

  function ReadU32le(b: bytes): u32
    requires |b| == 4
  {
    var b0: int, b1: int, b2: int, b3: int := b[0], b[1], b[2], b[3];
    b0 + 256 * b1 + 65536 * b2 + 16777216 * b3
  }

  function HeaderBytes(h: Header): (r: bytes)
    ensures |r| == HEADER_SIZE
  {
    MAGIC + [h.kind, h.flags] + U32le(h.reqId) + U32le(h.length)
  }

  function DecodeHeader(src: bytes): Status {
    if |src| < HEADER_SIZE then NeedMore
    else if src[..4] != MAGIC then Bad
    else
      var h := Header(src[4], src[5], ReadU32le(src[6..10]), ReadU32le(src[10..14]));
      if ValidHeader(h) then Decoded(h) else Bad
  }

  lemma ReadWriteU32le(n: u32)
    ensures ReadU32le(U32le(n)) == n
  {
    assert n == n % 256 + 256 * (n / 256);
    assert n / 256 == n / 256 % 256 + 256 * (n / 65536);
    assert n / 65536 == n / 65536 % 256 + 256 * (n / 16777216);
  }

  lemma Digits(b0: int, b1: int, b2: int, b3: int)
    requires 0 <= b0 < 256 && 0 <= b1 < 256 && 0 <= b2 < 256 && 0 <= b3 < 256
    ensures var n := b0 + 256 * b1 + 65536 * b2 + 16777216 * b3;
            n % 256 == b0 && n / 256 % 256 == b1 && n / 65536 % 256 == b2 && n / 16777216 == b3
  {
    var n := b0 + 256 * b1 + 65536 * b2 + 16777216 * b3;
    assert n / 256 == b1 + 256 * b2 + 65536 * b3;
    assert n / 65536 == b2 + 256 * b3;
  }

  lemma WriteReadU32le(b: bytes)
    requires |b| == 4
    ensures U32le(ReadU32le(b)) == b
  {
    Digits(b[0], b[1], b[2], b[3]);
  }

  /** Decoding inverts encoding, whatever follows the header. */
  lemma DecodeEncoded(h: Header, tail: bytes)
    requires ValidHeader(h)
    ensures DecodeHeader(HeaderBytes(h) + tail) == Decoded(h)
  {
    var src := HeaderBytes(h) + tail;
    assert src[..4] == MAGIC;
    assert src[6..10] == U32le(h.reqId);
    assert src[10..14] == U32le(h.length);
    ReadWriteU32le(h.reqId);
    ReadWriteU32le(h.length);
  }

  /** Encoding inverts decoding: an accepted header is exactly the encoding of what was decoded, so
      no two byte strings decode alike. */
  lemma EncodeDecoded(src: bytes, h: Header)
    requires DecodeHeader(src) == Decoded(h)
    ensures ValidHeader(h) && src[..HEADER_SIZE] == HeaderBytes(h)
  {
    WriteReadU32le(src[6..10]);
    WriteReadU32le(src[10..14]);
    assert src[..HEADER_SIZE] == src[..4] + [src[4], src[5]] + src[6..10] + src[10..14];
  }

  method WriteU32le(dst: array<byte>, at: nat, value: u32)
    requires at + 4 <= dst.Length
    modifies dst
    ensures dst[..] == old(dst[..at]) + U32le(value) + old(dst[at + 4..])
  {
    dst[at] := value % 256;
    dst[at + 1] := value / 256 % 256;
    dst[at + 2] := value / 65536 % 256;
    dst[at + 3] := value / 16777216;
  }

  method EncodeHeader(dst: array<byte>, h: Header) returns (ok: bool)
    modifies dst
    ensures ok == (dst.Length >= HEADER_SIZE && ValidHeader(h))
    ensures !ok ==> dst[..] == old(dst[..])
    ensures ok ==> dst[..] == HeaderBytes(h) + old(dst[HEADER_SIZE..])
  {
    if dst.Length < HEADER_SIZE || !ValidHeader(h) {
      return false;
    }
    dst[0], dst[1], dst[2], dst[3] := MAGIC[0], MAGIC[1], MAGIC[2], MAGIC[3];
    dst[4] := h.kind;
    dst[5] := h.flags;
    ghost var front := MAGIC + [h.kind, h.flags];
    assert dst[..6] == front;
    assert dst[14..] == old(dst[HEADER_SIZE..]);
    WriteU32le(dst, 6, h.reqId);
    assert dst[..10] == front + U32le(h.reqId);
    WriteU32le(dst, 10, h.length);
    return true;
  }

  method DecodeHeaderAt(src: array<byte>, at: nat, size: nat) returns (status: Status)
    requires at + size <= src.Length
    ensures status == DecodeHeader(src[at..at + size])
  {
    if size < HEADER_SIZE {
      return NeedMore;
    }
    ghost var view := src[at..at + size];
    assert view[..4] == src[at..at + 4];
    forall i | 0 <= i < 4
      ensures view[6..10][i] == src[at + 6..at + 10][i] && view[10..14][i] == src[at + 10..at + 14][i]
    {
      assert view[6 + i] == src[at + 6 + i] && view[10 + i] == src[at + 10 + i];
    }
    assert view[6..10] == src[at + 6..at + 10];
    assert view[10..14] == src[at + 10..at + 14];
    if src[at..at + 4] != MAGIC {
      return Bad;
    }
    var h := Header(src[at + 4], src[at + 5],
                    ReadU32le(src[at + 6..at + 10]), ReadU32le(src[at + 10..at + 14]));
    status := if ValidHeader(h) then Decoded(h) else Bad;
  }
}
