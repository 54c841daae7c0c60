/** src/transfer.c: uploads into a temporary file and downloads, one handler per frame. */
module Transfers {
  import opened Bytes
  import opened Frame
  import opened Stream
  import opened SessionState
  import opened Kv

  const PATH_CAP: nat := 512

  function PATH(): bytes { Ascii("path") }
  function SIZE(): bytes { Ascii("size") }
  function OVERWRITE(): bytes { Ascii("overwrite") }
  function CHUNK_SIZE(): bytes { Ascii("chunk_size") }
  function ONE(): bytes { Ascii("1") }

  /** The temporary file of a destination. */
  function Part(path: bytes): bytes { path + Ascii(".part") }

  function BeginReply(reqId: u32, path: bytes, size: nat): bytes {
    Ascii("status=ok\ntransfer_id=") + Decimal(reqId) + Ascii("\npath=") + path
    + Ascii("\nsize=") + Decimal(size)
  }

  function EndReply(path: bytes, size: nat): bytes {
    Ascii("status=ok\npath=") + path + Ascii("\nbytes=") + Decimal(size)
  }

  // ---- File calls ----

  /** O_CREAT | O_TRUNC | O_WRONLY: the new descriptor, or -1. */
  function OpenForWrite(fs: Fs, path: bytes, env: Env): (Fs, int) {
    var fd: int := env.fd;
    if env.openOk && fd !in fs.open then
      (fs.(files := fs.files[path := []], open := fs.open[fd := path]), fd)
    else (fs, -1)
  }

  /** O_RDONLY. */
  function OpenForRead(fs: Fs, path: bytes, env: Env): (Fs, int) {
    var fd: int := env.fd;
    if env.openOk && path in fs.files && fd !in fs.open then
      (fs.(open := fs.open[fd := path]), fd)
    else (fs, -1)
  }

  function Zeros(n: nat): bytes {
    seq(n, i => 0)
  }

  /** The file content after writing data at an offset; a gap reads as zeros. */
  function Splice(content: bytes, at: nat, data: bytes): bytes {
    if at > |content| then content + Zeros(at - |content|) + data
    else content[..at] + data + content[Min(at + |data|, |content|)..]
  }

  /** The number of bytes written, or -1. */
  function WriteAt(fs: Fs, fd: int, at: nat, data: bytes, env: Env): (Fs, int) {
    if fd !in fs.open then (fs.(stray := fs.stray + 1), -1)
    else if env.written < 0 then (fs, -1)
    else
      var n := Min(env.written, |data|);
      var path := fs.open[fd];
      if path !in fs.files then (fs, n)
      else (fs.(files := fs.files[path := Splice(fs.files[path], at, data[..n])]), n)
  }

  /** A read of at most n bytes; nothing stands for an error or end of file. */
  function ReadAt(fs: Fs, fd: int, at: nat, n: nat, env: Env): (r: Option<bytes>)
    ensures r.Some? ==> 0 < |r.value| <= n
  {
    if fd !in fs.open || fs.open[fd] !in fs.files then None
    else
      var content := fs.files[fs.open[fd]];
      var k := Min(env.readAt(at), Min(n, |content| - at));
      if k <= 0 then None else Some(content[at..at + k])
  }

  /** The descriptor is gone whatever the call answers. */
  function CloseFd(fs: Fs, fd: int): Fs {
    if fd in fs.open then fs.(open := fs.open - {fd}) else fs.(stray := fs.stray + 1)
  }

  function Unlink(fs: Fs, path: bytes, env: Env): Fs {
    if env.unlinkOk(path) then fs.(files := fs.files - {path}) else fs
  }

  function Rename(fs: Fs, from: bytes, to: bytes, env: Env): (Fs, bool) {
    if env.renameOk && from in fs.files then
      (fs.(files := (fs.files - {from})[to := fs.files[from]]), true)
    else (fs, false)
  }

  // ---- Uploads, on values ----

  function Abort(fs: Fs, t: Transfer, env: Env): Fs {
    var closed := if t.file >= 0 then CloseFd(fs, t.file) else fs;
    if t.tmp.Some? then Unlink(closed, t.tmp.value, env) else closed
  }

  function AbortUpload(c: Core, env: Env): Core {
    c.(fs := Abort(c.fs, c.upload, env), upload := IDLE)
  }

  function AbortDownload(c: Core, env: Env): Core {
    c.(fs := Abort(c.fs, c.download, env), download := IDLE)
  }

  function Started(t: Tally): Tally { t.(starts := t.starts + 1) }
  function Completed(t: Tally): Tally { t.(completes := t.completes + 1) }
  function Aborted(t: Tally): Tally { t.(aborts := t.aborts + 1) }

  function Overwrites(payload: bytes): bool {
    Copy(payload, OVERWRITE(), 16) == Some(ONE())
  }

  function PutBegin(c: Core, reqId: u32, payload: bytes, now: nat, env: Env): Core {
    var path, size := Copy(payload, PATH(), PATH_CAP), CopyU64(payload, SIZE());
    if c.upload.active then Fail(c, reqId, TransferBusy, now, env)
    else if path.None? || size.None? then Fail(c, reqId, MissingPathOrSize, now, env)
    else
      var t := c.upload.(path := path, tmp := Some(Part(path.value)), overwrite := Overwrites(payload),
                         mode := Upload, reqId := reqId, total := size.value, offset := 0,
                         progress := now, chunkSize := CopyU64Or(payload, CHUNK_SIZE(), READ_CHUNK));
      var c1 := c.(upload := t, tally := Started(c.tally));
      var (fs, fd) := OpenForWrite(c.fs, Part(path.value), env);
      if fd < 0 then Fail(AbortUpload(c1, env), reqId, FileError, now, env)
      else
        var c2 := c1.(fs := fs, upload := t.(file := fd, active := true));
        var reply := BeginReply(reqId, path.value, size.value);
        if |reply| >= REPLY_CAP then AbortUpload(Fail(c2, reqId, ReplyOverflow, now, env), env)
        else Tell(c2, Message(ACK, reqId, reply), now, env)
  }

  function PutChunk(c: Core, reqId: u32, data: bytes, now: nat, env: Env): Core {
    var t := c.upload;
    if !t.active || t.reqId != reqId then Fail(c, reqId, NoTransfer, now, env)
    else if t.mode != Upload then Fail(c, reqId, WrongMode, now, env)
    else if (t.offset + |data|) % TWO_64 > t.total then
      var c1 := Fail(c, reqId, ChunkTooLong, now, env);
      AbortUpload(c1.(tally := Aborted(c.tally)), env)
    else
      var (fs, n) := WriteAt(c.fs, t.file, t.offset, data, env);
      if n != |data| then
        var c1 := Fail(c.(fs := fs), reqId, WriteFailed, now, env);
        AbortUpload(c1.(tally := Aborted(c.tally)), env)
      else c.(fs := fs, upload := t.(offset := (t.offset + |data|) % TWO_64, progress := now))
  }

  /** transfer_finalize_rename: with overwrite the old file goes first. */
  function FinalizeRename(fs: Fs, t: Transfer, env: Env): (Fs, bool) {
    if t.path.None? || t.tmp.None? then (fs, false)
    else
      var cleared := if t.overwrite then Unlink(fs, t.path.value, env) else fs;
      Rename(cleared, t.tmp.value, t.path.value, env)
  }

  function PutEnd(c: Core, reqId: u32, now: nat, env: Env): Core {
    var t := c.upload;
    if !t.active || t.reqId != reqId then Fail(c, reqId, NoTransfer, now, env)
    else if t.mode != Upload then Fail(c, reqId, WrongMode, now, env)
    else if t.offset != t.total then AbortUpload(Fail(c, reqId, SizeMismatch, now, env), env)
    else
      var c1 := c.(fs := CloseFd(c.fs, t.file), upload := t.(file := -1));
      if !env.closeOk then AbortUpload(Fail(c1, reqId, FileError, now, env), env)
      else
        var (fs, renamed) := FinalizeRename(c1.fs, c1.upload, env);
        var c2 := c1.(fs := fs);
        if !renamed then AbortUpload(Fail(c2, reqId, FileError, now, env), env)
        else
          var reply := EndReply(PathOf(t), t.offset);
          if |reply| >= REPLY_CAP then AbortUpload(Fail(c2, reqId, ReplyOverflow, now, env), env)
          else
            var c3 := Tell(c2, Message(ACK, reqId, reply), now, env);
            c3.(tally := Completed(c3.tally), upload := IDLE)
  }

  function PathOf(t: Transfer): bytes {
    if t.path.Some? then t.path.value else []
  }

  // ---- Downloads, on values ----

  function ChunkSize(payload: bytes): (n: nat)
    ensures 1 <= n <= MAX_FRAME_PAYLOAD
  {
    var n := CopyU64Or(payload, CHUNK_SIZE(), READ_CHUNK);
    if n == 0 || n > MAX_FRAME_PAYLOAD then READ_CHUNK else n
  }

  function GetBegin(c: Core, reqId: u32, payload: bytes, now: nat, env: Env): Core {
    var path := Copy(payload, PATH(), PATH_CAP);
    if c.download.active then Fail(c, reqId, DownloadBusy, now, env)
    else if path.None? then Fail(c, reqId, MissingPath, now, env)
    else
      var d1 := c.download.(path := path, chunkSize := ChunkSize(payload));
      var (fs, fd) := OpenForRead(c.fs, path.value, env);
      if fd < 0 then Fail(AbortDownload(c.(download := d1), env), reqId, NotFound, now, env)
      else
        GetOpened(c.(fs := fs, download := d1.(file := fd)), reqId, path.value, now, env)
  }

  /** What follows once the file is open. */
  function GetOpened(c: Core, reqId: u32, path: bytes, now: nat, env: Env): Core {
    if !env.statOk then Fail(AbortDownload(c, env), reqId, FileError, now, env)
    else
      var total := FileSize(c.fs, path);
      var d := c.download.(active := true, mode := Download, reqId := reqId, total := total,
                           offset := 0, progress := now);
      var c1 := c.(download := d, tally := Started(c.tally));
      var reply := BeginReply(reqId, path, total);
      if |reply| >= REPLY_CAP then Fail(AbortDownload(c1, env), reqId, ReplyOverflow, now, env)
      else
        var (l, sent) := Send(c.link, Message(ACK, reqId, reply), now, env);
        if !sent then AbortDownload(c1.(link := l), env) else GetChunks(c1.(link := l), now, env)
  }

  function FileSize(fs: Fs, path: bytes): nat {
    if path in fs.files then |fs.files[path]| else 0
  }

  /** The chunk loop, which runs to its end inside the handler. */
  function GetChunks(c: Core, now: nat, env: Env): Core
    decreases c.download.total - c.download.offset
  {
    var d := c.download;
    if d.offset >= d.total then
      var c1 := Tell(c.(fs := CloseFd(c.fs, d.file)), Message(GET_END, d.reqId, Ascii("status=ok")), now, env);
      c1.(tally := Completed(c.tally), download := IDLE)
    else
      var data := ReadAt(c.fs, d.file, d.offset, Min(d.chunkSize, d.total - d.offset), env);
      if data.None? then
        Fail(AbortDownload(c.(tally := Aborted(c.tally)), env), d.reqId, ReadFailed, now, env)
      else
        var (l, sent) := Send(c.link, Message(GET_CHUNK, d.reqId, data.value), now, env);
        if !sent then AbortDownload(c.(link := l, tally := Aborted(c.tally)), env)
        else
          GetChunks(c.(link := l, download := d.(offset := d.offset + |data.value|, progress := now)),
                    now, env)
  }

  // ---- Stalled transfers ----

  /** uint64_t subtraction of two clock readings. */
  function Elapsed(now: nat, since: nat): nat {
    (now - since) % TWO_64
  }

  predicate IsStalled(t: Transfer, now: nat) {
    t.active && t.progress != 0 && Elapsed(now, t.progress) >= TRANSFER_IDLE_MS
  }

  function CheckUpload(c: Core, now: nat, env: Env): Core {
    if !IsStalled(c.upload, now) then c
    else AbortUpload(Fail(c.(tally := Aborted(c.tally)), c.upload.reqId, Stalled, now, env), env)
  }

  function CheckDownload(c: Core, now: nat, env: Env): Core {
    if !IsStalled(c.download, now) then c
    else AbortDownload(Fail(c.(tally := Aborted(c.tally)), c.download.reqId, Stalled, now, env), env)
  }

  // ---- The handlers in place ----

  method TransferAbortUpload(s: Session, env: Env)
    modifies s`fs, s`upload
    ensures s.State() == AbortUpload(old(s.State()), env)
  {
    if s.upload.file >= 0 {
      s.fs := CloseFd(s.fs, s.upload.file);
    }
    if s.upload.tmp.Some? {
      s.fs := Unlink(s.fs, s.upload.tmp.value, env);
    }
    s.upload := IDLE;
  }

  method TransferAbortDownload(s: Session, env: Env)
    modifies s`fs, s`download
    ensures s.State() == AbortDownload(old(s.State()), env)
  {
    if s.download.file >= 0 {
      s.fs := CloseFd(s.fs, s.download.file);
    }
    if s.download.tmp.Some? {
      s.fs := Unlink(s.fs, s.download.tmp.value, env);
    }
    s.download := IDLE;
  }

  method KvU64(payload: bytes, key: bytes) returns (r: Option<nat>)
    ensures r == CopyU64(payload, key)
  {
    hide Copy;
    var buf := KvCopy(payload, key, 64);
    r := if buf.None? then None else ParseU64(buf.value);
  }

  method HandlePutBegin(s: Session, reqId: u32, payload: bytes, now: nat, env: Env)
    modifies s`net, s`upload, s`fs, s`tally
    ensures s.State() == PutBegin(old(s.State()), reqId, payload, now, env)
  {
    hide Send, SendError, Copy, BeginReply, OpenForWrite, PATH, SIZE, OVERWRITE, CHUNK_SIZE, ONE, Abort, Part;
    if s.upload.active {
      SendErrorFrame(s, reqId, TransferBusy, now, env);
      return;
    }
    var path := KvCopy(payload, PATH(), PATH_CAP);
    var size := KvU64(payload, SIZE());
    if path.None? || size.None? {
      SendErrorFrame(s, reqId, MissingPathOrSize, now, env);
      return;
    }
    var tmp := Part(path.value);
    s.upload := s.upload.(path := path, tmp := Some(tmp));
    var overwrite := KvCopy(payload, OVERWRITE(), 16);
    var chunk := KvU64(payload, CHUNK_SIZE());
    s.upload := s.upload.(overwrite := overwrite == Some(ONE()), mode := Upload, reqId := reqId,
                          total := size.value, offset := 0, progress := now);
    s.upload := s.upload.(chunkSize := if chunk.None? then READ_CHUNK else chunk.value);
    s.tally := Started(s.tally);
    var fs, fd := OpenForWrite(s.fs, tmp, env).0, OpenForWrite(s.fs, tmp, env).1;
    if fd < 0 {
      NoOpen(s.fs, tmp, env);
      TransferAbortUpload(s, env);
      SendErrorFrame(s, reqId, FileError, now, env);
      return;
    }
    s.fs := fs;
    s.upload := s.upload.(file := fd);
    s.upload := s.upload.(active := true);
    var reply := BeginReply(reqId, path.value, size.value);
    if |reply| >= REPLY_CAP {
      SendErrorFrame(s, reqId, ReplyOverflow, now, env);
      TransferAbortUpload(s, env);
      return;
    }
    var _ := SendFrame(s, Message(ACK, reqId, reply), now, env);
  }

  lemma NoOpen(fs: Fs, path: bytes, env: Env)
    ensures OpenForWrite(fs, path, env).1 < 0 ==> OpenForWrite(fs, path, env).0 == fs
    ensures OpenForRead(fs, path, env).1 < 0 ==> OpenForRead(fs, path, env).0 == fs
  {
  }

  method HandlePutChunk(s: Session, reqId: u32, data: bytes, now: nat, env: Env)
    modifies s`net, s`upload, s`fs, s`tally
    ensures s.State() == PutChunk(old(s.State()), reqId, data, now, env)
  {
    hide Send, SendError, WriteAt, Abort;
    if !s.upload.active || s.upload.reqId != reqId {
      SendErrorFrame(s, reqId, NoTransfer, now, env);
      return;
    }
    if s.upload.mode != Upload {
      SendErrorFrame(s, reqId, WrongMode, now, env);
      return;
    }
    if (s.upload.offset + |data|) % TWO_64 > s.upload.total {
      SendErrorFrame(s, reqId, ChunkTooLong, now, env);
      s.tally := Aborted(s.tally);
      TransferAbortUpload(s, env);
      return;
    }
    var written := WriteAt(s.fs, s.upload.file, s.upload.offset, data, env);
    s.fs := written.0;
    if written.1 < 0 || written.1 != |data| {
      SendErrorFrame(s, reqId, WriteFailed, now, env);
      s.tally := Aborted(s.tally);
      TransferAbortUpload(s, env);
      return;
    }
    s.upload := s.upload.(offset := (s.upload.offset + |data|) % TWO_64);
    s.upload := s.upload.(progress := now);
  }

  method HandlePutEnd(s: Session, reqId: u32, now: nat, env: Env)
    modifies s`net, s`upload, s`fs, s`tally
    ensures s.State() == PutEnd(old(s.State()), reqId, now, env)
  {
    hide Send, SendError, Abort, EndReply, Rename, Unlink, CloseFd;
    if !s.upload.active || s.upload.reqId != reqId {
      SendErrorFrame(s, reqId, NoTransfer, now, env);
      return;
    }
    if s.upload.mode != Upload {
      SendErrorFrame(s, reqId, WrongMode, now, env);
      return;
    }
    if s.upload.offset != s.upload.total {
      SendErrorFrame(s, reqId, SizeMismatch, now, env);
      TransferAbortUpload(s, env);
      return;
    }
    s.fs := CloseFd(s.fs, s.upload.file);
    s.upload := s.upload.(file := -1);
    if !env.closeOk {
      SendErrorFrame(s, reqId, FileError, now, env);
      TransferAbortUpload(s, env);
      return;
    }
    var renamed := TransferFinalizeRename(s, env);
    if !renamed {
      SendErrorFrame(s, reqId, FileError, now, env);
      TransferAbortUpload(s, env);
      return;
    }
    var reply := EndReply(PathOf(s.upload), s.upload.offset);
    if |reply| >= REPLY_CAP {
      SendErrorFrame(s, reqId, ReplyOverflow, now, env);
      TransferAbortUpload(s, env);
      return;
    }
    var _ := SendFrame(s, Message(ACK, reqId, reply), now, env);
    s.tally := Completed(s.tally);
    s.upload := IDLE;
  }

  method TransferFinalizeRename(s: Session, env: Env) returns (renamed: bool)
    modifies s`fs
    ensures (s.fs, renamed) == FinalizeRename(old(s.fs), s.upload, env)
  {
    if s.upload.path.None? || s.upload.tmp.None? {
      return false;
    }
    if s.upload.overwrite {
      s.fs := Unlink(s.fs, s.upload.path.value, env);
    }
    var r := Rename(s.fs, s.upload.tmp.value, s.upload.path.value, env);
    s.fs := r.0;
    return r.1;
  }

  method HandleGetBegin(s: Session, reqId: u32, payload: bytes, now: nat, env: Env)
    modifies s`net, s`download, s`fs, s`tally
    ensures s.State() == GetBegin(old(s.State()), reqId, payload, now, env)
  {
    hide SendError, Copy, OpenForRead, PATH, CHUNK_SIZE, Abort, GetOpened;
    if s.download.active {
      SendErrorFrame(s, reqId, DownloadBusy, now, env);
      return;
    }
    var path := KvCopy(payload, PATH(), PATH_CAP);
    if path.None? {
      SendErrorFrame(s, reqId, MissingPath, now, env);
      return;
    }
    s.download := s.download.(path := path);
    var asked := KvU64(payload, CHUNK_SIZE());
    var chunk := if asked.None? then READ_CHUNK else asked.value;
    if chunk == 0 || chunk > MAX_FRAME_PAYLOAD {
      chunk := READ_CHUNK;
    }
    s.download := s.download.(chunkSize := chunk);
    var file := OpenForRead(s.fs, path.value, env);
    if file.1 < 0 {
      TransferAbortDownload(s, env);
      SendErrorFrame(s, reqId, NotFound, now, env);
      return;
    }
    s.fs := file.0;
    s.download := s.download.(file := file.1);
    AnnounceDownload(s, reqId, path.value, now, env);
  }

  method AnnounceDownload(s: Session, reqId: u32, path: bytes, now: nat, env: Env)
    modifies s`net, s`download, s`fs, s`tally
    ensures s.State() == GetOpened(old(s.State()), reqId, path, now, env)
  {
    hide Send, SendError, BeginReply, Abort, GetChunks;
    if !env.statOk {
      TransferAbortDownload(s, env);
      SendErrorFrame(s, reqId, FileError, now, env);
      return;
    }
    var total := FileSize(s.fs, path);
    s.download := s.download.(active := true, mode := Download, reqId := reqId, total := total);
    s.download := s.download.(offset := 0, progress := now);
    s.tally := Started(s.tally);
    var reply := BeginReply(reqId, path, total);
    if |reply| >= REPLY_CAP {
      TransferAbortDownload(s, env);
      SendErrorFrame(s, reqId, ReplyOverflow, now, env);
      return;
    }
    var sent := SendFrame(s, Message(ACK, reqId, reply), now, env);
    if !sent {
      TransferAbortDownload(s, env);
      return;
    }
    SendChunks(s, now, env);
  }

  method SendChunks(s: Session, now: nat, env: Env)
    modifies s`net, s`download, s`fs, s`tally
    ensures s.State() == GetChunks(old(s.State()), now, env)
  {
    hide Send, SendError, Abort, ReadAt, CloseFd;
    while s.download.offset < s.download.total
      invariant GetChunks(s.State(), now, env) == GetChunks(old(s.State()), now, env)
      decreases s.download.total - s.download.offset
    {
      var reqId := s.download.reqId;
      var toRead := s.download.chunkSize;
      if s.download.total - s.download.offset < toRead {
        toRead := s.download.total - s.download.offset;
      }
      var data := ReadAt(s.fs, s.download.file, s.download.offset, toRead, env);
      if data.None? {
        s.tally := Aborted(s.tally);
        TransferAbortDownload(s, env);
        SendErrorFrame(s, reqId, ReadFailed, now, env);
        return;
      }
      var sent := SendFrame(s, Message(GET_CHUNK, reqId, data.value), now, env);
      if !sent {
        s.tally := Aborted(s.tally);
        TransferAbortDownload(s, env);
        return;
      }
      s.download := s.download.(offset := s.download.offset + |data.value|);
      s.download := s.download.(progress := now);
    }
    s.fs := CloseFd(s.fs, s.download.file);
    var _ := SendFrame(s, Message(GET_END, s.download.reqId, Ascii("status=ok")), now, env);
    s.tally := Completed(s.tally);
    s.download := IDLE;
  }

  method CheckTimeouts(s: Session, now: nat, env: Env)
    modifies s`net, s`upload, s`download, s`fs, s`tally
    ensures s.State() == CheckDownload(CheckUpload(old(s.State()), now, env), now, env)
  {
    hide Send, SendError, Abort;
    if IsStalled(s.upload, now) {
      s.tally := Aborted(s.tally);
      SendErrorFrame(s, s.upload.reqId, Stalled, now, env);
      TransferAbortUpload(s, env);
    }
    if IsStalled(s.download, now) {
      s.tally := Aborted(s.tally);
      SendErrorFrame(s, s.download.reqId, Stalled, now, env);
      TransferAbortDownload(s, env);
    }
  }
}
