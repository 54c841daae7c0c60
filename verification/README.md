# A verified model of the luagent protocol engine

The agent is a small remote-control server: a framed TCP protocol, one upload slot, one download slot and
one child process per session, a table of port relays, a bounded write queue, and a libuv event loop that
drives all of it. This project models that engine in Dafny and proves what holds over whole runs.

How it is built:

- One module per source file. The per-connection record is the class `SessionState.Session`; the handlers
  are methods that change it in place, as the C functions do. Each method is specified by a function on
  plain values (`HandlePutChunk` by `PutChunk`, `ReadCb` by `Read`, and so on), and the theorems are about
  those functions.
- libuv, the file system and child processes are an environment. What each call answers is read from an
  `Env` value, one per frame or callback; a call that can come more than once in a frame (a write, a read, an
  unlink, a spawn) has an answer of its own each time. So every statement holds for all answers: failed opens,
  short reads and writes, refused buffers, failed renames, failed spawns, failed kills. The state of every
  libuv handle is part of the model, and `Lifetime.Enabled` states what libuv may deliver: no callback inside
  a handler, write callbacks before the socket's close callback, nothing on a pipe after its end, one exit per
  child. A handle that was given to uv_close without a callback is `Detached`: libuv still has to finish
  closing it, and nothing tells the session when it has.
- `Lifetime.Step` is the session as a machine over these events, `Runs.Reachable` its reachable states.
- Relays are a table of the whole agent. Freeing a session removes its relays; that step is in `Relays.Step`,
  beside the release of the session's own state in `Lifetime.Release`.
- An `OP` frame runs Lua code; the model lets that code do any sequence of replies, error replies and spawns.
- The clock is read once per event and does not go back. The file system is a map from path to bytes, and
  the session is the only writer of the paths it uploads to.

History variables (the child's log, the overlap mark, the time of the last tick, the stray-descriptor count,
bytes taken from the socket, relay serials) are written but never read by a branch.

Where the code and its documents differ, the model follows the code:

- docs/protocol.md says PUT_END finalises atomically. With `overwrite=1` the old file is unlinked before the
  rename; `Destination.EndOutcome` says exactly when the destination ends absent. And an upload to `p` empties
  or removes a file named `p.part`, as `Destination.BeginOutcome` says.
- docs/protocol.md calls duplicate keys invalid. Neither reader rejects them, and the two readers choose
  differently; `KvLaws.Agreement` says exactly when they agree.
- docs/protocol.md allows frames of 65536 payload bytes. The receive buffer holds 16384 bytes;
  `Stream.OverflowExactly` says exactly which byte streams can overflow it.
- docs/protocol.md says a download finishes with GET_END. A file that does not fit the write queue in one go
  closes the session instead; `Download.DownloadThreshold` and `Download.DownloadExactly` give the exact size.

Where the code does not keep such a promise, the exact condition under which it does is proved. `Witnesses` has
runs, from the accept on, that break those about the session's life, its files and its counters.

## Main results

- **Reassembly.** Over every run of a session what is dispatched is a prefix of the one-shot parse of the bytes
  read, and all of it unless a read overflows the buffer; a stream can overflow it if and only if it is
  overlong; and a session whose stream is not closes only for one of the listed causes.
- **Upload, end to end.** The client's frames, cut in any way, end as exactly the client's bytes at the path.
- **Destination.** Over every run the files refine an atomic store: every path that was never the temporary name
  of an upload holds exactly what the last effective PUT_END to it left there, whole or cleared.
- **Download, end to end.** What is queued is a prefix of the file, GET_END only after all of it, and the
  client's collector gets back the file if and only if it fits the write queue, at an exact size.
- **Conversation.** Over every run the answer to each frame, the frames of the child and of the heartbeat, on the
  queue and as the client reads them; a spawn starts exactly what was asked for, under an exact condition.
- **Slots.** Over every run the upload slot and the child slot are, field by field, what an observer of the frames,
  of libuv's events and of the clock notes; so a stall, a timeout and a kill happen exactly when they should.
- **Lifetime.** As long as no spawn is tried while libuv holds a handle of an earlier one: the session is freed
  once; `close_refs` is exact, and nothing can happen to a freed session, if and only if no failed spawn has
  left a pipe closing; child runs follow their pattern in every interleaving.
- **Parsers.** The C and the Lua reader of the same payload, the argument builders, and when they agree.
- **Accounts.** Write queues, relays, timers, the rotating log, and exactly when the transfer counters balance.

## Model

| member | source | states |
|---|---|---|
| `Bytes.ParseDecimal` | src/transfer.c:63-81 | printing a 64-bit number and parsing it back is the identity |
| `Bytes.ParseForms` | src/transfer.c:73-77 | white space, a sign and digits are accepted, with the value modulo 2^64 of a negative number, unless the magnitude exceeds 64 bits |
| `Bytes.ParsedForm` | src/transfer.c:73-77 | no other text is accepted |
| `Frame.WriteU32le` | src/frame.c:14-20 | writes the four little-endian bytes in place and nothing else |
| `Frame.EncodeHeader` | src/frame.c:44-61 | succeeds exactly on a large enough buffer and a valid header; then the first 14 bytes are the header and the rest is untouched; otherwise nothing changes |
| `Frame.DecodeHeaderAt` | src/frame.c:63-84 | decodes the header at an offset of the buffer: need more, bad magic or header, or the fields |
| `Frame.WriteReadU32le` | src/frame.c:6-20 | writing back a little-endian number that was read gives the same bytes |
| `Frame.DecodeEncoded` | src/frame.c:44-84 | decoding inverts encoding for every valid header, whatever follows |
| `Frame.EncodeDecoded` | src/frame.c:63-84 | an accepted header is exactly the encoding of the decoded fields, so decoding is injective |
| `Stream.ParseEncoded` | tools/client_daemon.py:39-40 | parsing the concatenated encodings of any messages gives back those messages and nothing left |
| `Stream.ParseAppend` | src/server.c:66-107 | parsed frames stay parsed, the rest can be parsed later with the bytes that follow, and a bad header stays bad |
| `Stream.DeliverRefinesParse` | src/server.c:51-107 | for any reads, the dispatched messages are a prefix of the one-shot parse, equal to it without overflow, and stop at the same bad header |
| `Stream.DispatchedFitBuffer` | src/server.c:51-60 | no frame over 16384 bytes is ever dispatched |
| `Stream.OverflowExactly` | src/server.c:51-60 | some split into reads of at most 4096 bytes overflows the buffer if and only if the stream has a frame over 12289 bytes with more than 16384 bytes from its start |
| `Stream.Reassembly` | src/server.c:51-107 | unless the stream is overlong, every split dispatches the same messages in order and ends at a bad header exactly when the stream has one |
| `Stream.ShortFramesNotOverlong` | src/server.c:51-60 | frames of at most 12289 bytes are never overlong |
| `Server.ReadCb` | src/server.c:29-108 | in place: append, dispatch every complete frame, close on overflow or bad header, compact; buffer and session become those of `Read` |
| `Server.DispatchFrames` | src/server.c:66-101 | the frame loop dispatches exactly the messages of the one-shot parse of the buffer and stops at its rest |
| `Server.NextFrame` | src/server.c:66-86 | the frame at an offset of the buffer: incomplete, malformed or complete |
| `Server.Append` | src/server.c:62-63 | the chunk stands behind the bytes already buffered |
| `Server.Compact` | src/server.c:103-107 | the overlapping move brings the unconsumed bytes to the front |
| `Server.ReadDelivers` | src/server.c:51-107 | a read hands the router what reassembly delivers, closes on overflow or bad header, and keeps the rest otherwise |
| `Reassembly.ReachableReassembly` | src/server.c:29-108 | from any reachable open session, over every run: the dispatched frames are a prefix of the one-shot parse of all bytes read; no read overflows unless the stream is overlong; without an overflow they are all frames of the stream, whatever closes the session; on an open one the rest is buffered |
| `Reassembly.FramesCounted` | src/server.c:88-99 | over every run frames and bytes received are counted for exactly the dispatched frames |
| `Reassembly.WhatCloses` | src/server.c:51-101 | a session whose stream is not overlong closes only at end of file, at a tick after 15000 ms of silence or whose frames do not fit, when a child's frame finds the queue full, at a bad header, or inside a frame's handler |
| `SessionState.Session.constructor` | src/server.c:122-166 | an accepted session: empty buffer of 16384 bytes, one reference for the timer |
| `SessionState.CloseSession` | src/session.c:154-170 | closing happens once: timer and socket start closing and one reference is added |
| `SessionState.FillBuffer` | src/session.c:194-221 | the buffer handed to libuv is the encoded message, or nothing for an invalid one |
| `SessionState.SendFrame` | src/session.c:172-236 | refuses on a closed session, closes on queue overflow, otherwise counts and queues the encoded frame or gives the bytes back |
| `SessionState.SendErrorFrame` | src/session.c:250-262 | sends code and message as an ERROR frame if they fit 512 bytes |
| `SessionState.OnWriteDone` | src/session.c:22-38 | the oldest buffer leaves the queue and the account |
| `Kv.KvValue` | src/transfer.c:14-42 | finds the position of the first matching line's value, or nothing |
| `Kv.KvCopy` | src/transfer.c:44-61 | the value up to CR or LF if it is present and fits the buffer |
| `Lua.ParseKv` | lua/bootstrap.lua:3-12 | the table of the payload's runs, a later line overriding an earlier one |
| `KvLaws.CReadsFirst` | src/proc.c:19-66 | the C reader answers the first value it can see: at a line start, at least one byte after the '=', up to a CR |
| `KvLaws.LuaReadsLast` | lua/bootstrap.lua:3-12 | the Lua reader answers the last value of the key, even an empty one |
| `KvLaws.NoEmptyKey` | lua/bootstrap.lua:6 | a line that starts with '=' is no entry to the Lua reader |
| `KvLaws.Readers` | src/transfer.c:14-61 | on every payload the C reader answers the first value it can see and the Lua reader the last it can see, which are at least as many |
| `KvLaws.PlainReaders` | src/transfer.c:14-61 | on a payload without CR both go by the same list of values: the first non-empty one, and the last |
| `KvLaws.Agreement` | src/transfer.c:14-61 | on every payload the two readers agree if and only if the Lua reader sees no value, or the first the C reader sees is the last the Lua reader sees |
| `KvLaws.EmptyValueDisagreement` | src/transfer.c:29-33 | an empty value is missing to the C reader and present to the Lua reader |
| `Argv.EncodeItems` | tools/client_daemon.py:72-76 | the encoder's loops give the lines joined by line feeds |
| `Argv.EncodedPresent` | tools/client_daemon.py:72-76 | both readers invert the encoder on a present key (the C reader if the value is not empty) |
| `Argv.EncodedAbsent` | tools/client_daemon.py:72-76 | both readers find nothing for an absent key |
| `Argv.NumberField` | src/transfer.c:63-81 | a number field is read as strtoull does if it has 1 to 63 characters, and missing otherwise |
| `Argv.ArgNameText` | src/proc.c:256 | the argument keys are spelled "argv0", "argv1" and so on |
| `Argv.ArgCountBound` | src/proc.c:255-263 | distinct argument keys are found on distinct lines, so the unbounded counting loop ends |
| `Argv.BuildArgs` | src/proc.c:247-297 | both passes: the counted arguments, or the path for fewer than two; the second pass never fails |
| `Argv.CollectArgv` | lua/ops/tool_run.lua:1-17 | the consecutive arguments of the table, or the path for none; the loop ends |
| `Argv.SpawnArgs` | src/proc.c:247-297 | of any list of plain arguments the C side takes the leading non-empty ones of at most 511 bytes, and the path if fewer than two |
| `Argv.SpawnRoundTrip` | tools/client_daemon.py:192-196 | for any bytes in path and list, the agent spawns what was asked for if and only if all of it is free of CR, LF and NUL, the path has 1 to 511 bytes, and the list is just the path, or two or more arguments of 1 to 511 bytes |
| `Argv.LuaKeeps` | lua/ops/tool_run.lua:1-17 | the Lua side gives back every list of plain arguments, the path for the empty one |
| `Argv.LuaRoundTrip` | lua/ops/tool_run.lua:1-17 | for any bytes, the Lua side gets what the client sent if and only if all of it is free of CR, LF and NUL and the list is not empty |
| `Argv.SidesAgree` | lua/ops/tool_run.lua:1-25 | on plain text the C side and the Lua side take the same path and list if and only if the path has 1 to 511 bytes and the list is empty or survives the C side |
| `Transfers.TransferAbortUpload` | src/transfer.c:147-166 | closes the descriptor, unlinks the temporary file, clears the upload slot |
| `Transfers.TransferAbortDownload` | src/transfer.c:147-166 | the same for the download slot |
| `Transfers.KvU64` | src/transfer.c:63-81 | the value as strtoull reads it to the end of the text (white space, sign, digits, 64 bits) from at most 63 characters, or nothing |
| `Transfers.HandlePutBegin` | src/transfer.c:186-257 | every branch of PUT_BEGIN: busy, bad payload, open failure, reply overflow, acknowledged |
| `Transfers.HandlePutChunk` | src/transfer.c:259-298 | every branch of PUT_CHUNK, with the 64-bit sum of the size check |
| `Transfers.HandlePutEnd` | src/transfer.c:300-355 | every branch of PUT_END: mismatch, close failure, rename failure, reply overflow, complete |
| `Transfers.TransferFinalizeRename` | src/transfer.c:103-116 | unlink first with overwrite, then rename |
| `Transfers.HandleGetBegin` | src/transfer.c:357-397 | GET_BEGIN up to the open file, with its error branches |
| `Transfers.AnnounceDownload` | src/transfer.c:399-431 | stat, announcement and its failures |
| `Transfers.SendChunks` | src/transfer.c:433-482 | the chunk loop inside the handler and its three ends |
| `Transfers.CheckTimeouts` | src/transfer.c:168-184 | stalled transfers are counted, reported and aborted |
| `Procs.SpawnCommon` | src/proc.c:326-447 | busy, the three failures and success of a spawn; three references on success and none on failure; reply with or without |
| `Procs.ClosePipes` | src/proc.c:367-418 | a failed spawn gives the pipes it has initialised to uv_close without a callback |
| `Procs.HandleSpawnFrame` | src/proc.c:468-490 | path, arguments and timeouts from the payload, then spawn |
| `Procs.FinalizeIfDone` | src/proc.c:159-168 | only when exited and both pipes ended: pipes start closing, slot cleared |
| `Procs.OnProcExit` | src/proc.c:202-226 | EXIT with the run's id and kill reason, process handle starts closing, maybe finalise |
| `Procs.OnPipeData` | src/proc.c:177-184 | output is sent under the current child's id and refreshes its idle time |
| `Procs.OnPipeEof` | src/proc.c:185-197 | marks the pipe and maybe finalises |
| `Procs.HandleKillFrame` | src/proc.c:492-522 | missing id, no such child, failed kill, acknowledged kill |
| `Procs.CheckProcTimeouts` | src/proc.c:524-554 | absolute timeout before idle timeout |
| `Protocol.HandleOpFrame` | src/protocol.c:92-101 | any sequence of Lua calls on the session, then an error if Lua failed |
| `Protocol.HandleControl` | src/protocol.c:59-138 | routes each frame type to its handler and rejects the others |
| `Lifetime.ReleaseRef` | src/session.c:40-60 | one reference less; the last one aborts both transfers and the child slot and frees |
| `Lifetime.HeartbeatCb` | src/session.c:80-110 | idle close, ping, transfer and child timeouts, in this order |
| `Lifetime.RunCallback` | src/session.c:74-78 | every callback but the read, in place, is the step of the machine |
| `Invariants.SendKeeps` | src/session.c:172-236 | any send keeps the queue account, the closing phases, the reference count and the time stamps |
| `Invariants.PutBeginKeeps` | src/transfer.c:186-257 | PUT_BEGIN keeps the session invariant on every branch |
| `Invariants.PutChunkKeeps` | src/transfer.c:259-298 | PUT_CHUNK keeps it: the temporary file stays as long as the accepted bytes |
| `Invariants.PutEndKeeps` | src/transfer.c:300-355 | PUT_END keeps it: no descriptor leaks or is closed twice on any branch |
| `Invariants.AbortOwned` | src/transfer.c:147-166 | an abort closes the one descriptor, removes only the temporary file and leaves all other files |
| `Invariants.EndReplyShorter` | src/transfer.c:245-256 | the PUT_END reply is strictly shorter than the PUT_BEGIN reply for the same path and size |
| `Invariants.GetChunksKeeps` | src/transfer.c:433-482 | however the chunk loop ends: slot idle, descriptor closed, files and upload untouched, counted once |
| `Invariants.GetBeginKeeps` | src/transfer.c:357-483 | a download keeps the invariant and changes no file and no upload |
| `Invariants.LaunchedOk` | src/proc.c:424-429 | a successful spawn keeps the count exact when no handle of the previous child is live |
| `Invariants.RefusedOk` | src/proc.c:361-422 | a failed spawn adds no reference, and the pipes it leaves closing are not counted |
| `Invariants.MaybeFinalizeKeeps` | src/proc.c:159-168 | finalisation keeps the run pattern and the number of live child handles |
| `Invariants.ProcExitKeeps` | src/proc.c:202-226 | an exit in any order with the pipe ends keeps the invariant |
| `Invariants.PipeEofKeeps` | src/proc.c:185-197 | a pipe end in any order with the exit keeps the invariant |
| `Invariants.FreedProcOk` | src/proc.c:233-245 | when the count is zero no child runs, so the kill branch of the abort is not taken |
| `Invariants.ReleaseKeeps` | src/session.c:40-60 | giving back a reference keeps the invariant, freeing included |
| `Invariants.TickKeeps` | src/session.c:80-110 | a tick keeps the invariant and re-establishes the silence bounds |
| `Invariants.WriteDoneKeeps` | src/session.c:22-38 | the guard of the write callback always holds |
| `Invariants.DispatchKeeps` | src/protocol.c:59-138 | every frame, with every outcome of its calls, keeps the invariant |
| `Invariants.ReadKeeps` | src/server.c:29-108 | every read keeps the invariant |
| `Invariants.CallbackKeeps` | src/session.c:22-110 | every callback libuv may deliver keeps the invariant |
| `Runs.ReachableOk` | src/session.c:112-170 | the invariant holds in every reachable state |
| `Theorems.ReferenceCounting` | src/session.c:40-78 | the count is short of the outstanding handles by exactly the detached pipes, so exact if and only if there are none; freed once, exactly when closed with nothing but detached pipes outstanding, never while open |
| `Theorems.AfterFree` | src/session.c:51-59 | what can happen after the free is exactly the end of a detached pipe: no write and no handle callback is outstanding |
| `Theorems.NothingAfterFree` | src/session.c:51-59 | after the free no event is possible if and only if no failed spawn has left a pipe closing |
| `Theorems.FreeIsClean` | src/session.c:51-59 | the freeing step finds no running child and leaves no descriptor and, if unlink succeeds, no temporary file |
| `Theorems.OnlyHandlesFree` | src/session.c:74-78 | no other callback frees the session |
| `Theorems.PeerGone` | src/server.c:34-45 | when the peer is gone the session is closed, with one more reference, and nothing else changes |
| `Theorems.DetachedEnds` | src/proc.c:417-418 | the end of a detached pipe gives no reference back and changes nothing else |
| `Theorems.RespawnExactly` | src/proc.c:336-342 | after a respawn the count exceeds the outstanding handles by the counted handles of the previous child that libuv still holds; nothing is initialised again under libuv if and only if it holds no handle of an earlier attempt, which the agent does not check |
| `Pipes.FailedSpawn` | src/proc.c:361-429 | which pipes each kind of failed spawn leaves closing without a reference, and that only a started child adds three |
| `Pipes.CleanRuns` | src/proc.c:361-429 | on every run in which no spawn fails after a pipe was initialised and none overlaps: the count is exact, freed once, closed with nothing outstanding, and no event afterwards |
| `Witnesses.FreedWithDetachedPipes` | src/proc.c:417-418 | one read with a refused PROC_SPAWN and then no header, and two close callbacks: freed while libuv holds both pipes |
| `Witnesses.RespawnTooEarly` | src/proc.c:336-342 | a run that respawns before the first child's handles have closed: three references more than handles |
| `Witnesses.RespawnOverDetached` | src/proc.c:336-418 | a run in which a good spawn follows a refused one and initialises its closing pipes |
| `Witnesses.PartLost` | src/transfer.c:218-235 | a run in which PUT_BEGIN for "a" empties the file "a.part" |
| `Witnesses.DestinationLost` | src/transfer.c:103-116 | a run in which an overwriting upload, complete, leaves its destination absent |
| `Witnesses.StartUnmatched` | src/transfer.c:218-235 | a run with one start and neither completion nor abort nor active upload |
| `Theorems.RunsBalance` | src/proc.c:159-226 | in a history of complete runs spawns, exits and finalisations are equal in number |
| `Theorems.ChildRuns` | src/proc.c:159-226 | every interleaving gives runs of one spawn, output under the run's id before the end of its pipe, one end of each pipe, one exit whose reason is the last kill tried, one finalisation; and the slot holds what the history says |
| `Theorems.SendCounts` | src/session.c:223-226 | a send counts a frame and its bytes exactly when they are handed to uv_write |
| `Theorems.QueueAccount` | src/session.c:22-38 | pending bytes are the sum of the buffers in flight and at most 262144 |
| `Theorems.TransferSlots` | src/transfer.c:118-166 | between events: no download; an upload slot idle with nothing open, or active with one descriptor on one temporary file as long as the accepted bytes; no stray descriptor call ever |
| `Theorems.DownloadNeverPending` | src/transfer.c:168-184 | the download branches of the timeout check and of "already active" never act |
| `Theorems.EndReplyFits` | src/transfer.c:339-346 | the reply overflow branch of PUT_END is unreachable after an accepted PUT_BEGIN |
| `Theorems.Conservation` | src/diag.c:216-246 | completes plus aborts plus active uploads never exceed starts; on an open session counted plus buffered bytes are the bytes taken |
| `Theorems.SilenceBounds` | src/session.c:80-105 | with the last tick at most d ms ago an open session has inbound silence below 15000+d and has tried to send within 5000+d, and no subtraction wraps |
| `Runs.LastTxIsLastSent` | src/session.c:225 | over every run the stamp that the heartbeat reads is the time of the last frame handed to uv_write, or of the accept |
| `Theorems.ChildTimeouts` | src/session.c:80-110 | what a tick does to the child: one kill for the timeout, else one for the idle timeout, exactly when the session is open and heard within 15000 ms and the child is overdue or silent; nothing otherwise |
| `Kids.ChildRefines` | src/proc.c:159-554 | over every run without an overlapping spawn the child slot is, field by field, what an observer of frames, events and clock notes: path, arguments, limits and start as asked for, the id the number of the spawn, last output, last kill, what has ended, and the whole history |
| `Matching.DispatchLoses` | src/transfer.c:186-483 | a frame leaves one more start unmatched exactly in the uncounted branches: failed open or reply overflow of PUT_BEGIN, missing bytes or failed close or rename of PUT_END, unsent announcement of GET_BEGIN |
| `Matching.StartsMatched` | src/diag.c:236-246 | over every run, starts equal completions plus aborts plus active uploads if and only if no transfer ended in one of these branches and none was active when the session was freed |
| `Destination.EndOutcome` | src/transfer.c:103-116 | what PUT_END of a complete upload leaves at the destination, for every outcome of close, unlink and rename |
| `Destination.BeginOutcome` | src/transfer.c:186-257 | what PUT_BEGIN leaves at its temporary name, for every outcome of open, reply and unlink, and that it changes no other file |
| `Destination.EndFiles` | src/transfer.c:300-355 | PUT_END leaves every path but temporary names as the atomic store has it |
| `Destination.NeverPartial` | src/transfer.c:186-355 | over every run each path that was never a temporary name, so each that does not end in ".part", holds exactly what the last effective PUT_END to it left (all declared bytes, or cleared), or its first content; the temporary file is exactly what was received |
| `Destination.UploadRefines` | src/transfer.c:186-355 | over every run the upload slot is, field by field, the upload that an observer of frames, answers and clock notes: its parameters, the bytes accepted and the time of the last progress; idle if there is none |
| `Destination.StallExactly` | src/transfer.c:168-184 | after any run a tick aborts the upload if and only if the session was heard within 15000 ms and no PUT_BEGIN or chunk of it was accepted for 20000 ms; and then bytes had arrived more than 5000 ms after that |
| `Download.ChunksSent` | src/transfer.c:440-482 | for any reads and any queue: chunks of a prefix of the file, then GET_END only after the whole file or an ERROR only before; counted complete exactly if all of it was queued |
| `Download.BeginSends` | src/transfer.c:357-483 | what one GET_BEGIN queues in total, and what it counts |
| `Download.BeginCollects` | src/transfer.c:357-483 | if GET_END was queued, parsing everything in flight and collecting the request's stream gives exactly the file |
| `Download.DownloadEndToEnd` | tools/client_daemon.py:168-190 | the same from any reachable open session that reads get_file's request |
| `Download.ChunksFit` | src/transfer.c:440-476 | from the loop head: all remaining chunks and GET_END queued, all chunks and the session closed, or a part of them and the transfer aborted, by what fits |
| `Download.DownloadThreshold` | src/transfer.c:384-482 | with need = pending + announcement + N + 14*ceil(N/c): announcement, every chunk and GET_END are queued if and only if need + 23 is at most 262144; all but GET_END if and only if only need is; a part if and only if need is not; complete if and only if need is |
| `Download.DownloadExactly` | tools/client_daemon.py:168-190 | from any reachable open session, get_file's collector gets the file if and only if need + 23 is at most 262144, and nothing otherwise |
| `Download.AskedSize` | src/transfer.c:384-387 | a requested chunk size from 1 to 65536 is taken as it is, any other stands for 4096 |
| `Download.ChunksAsAsked` | src/transfer.c:384-476 | the file is queued in pieces of the requested size (4096 for zero, a larger one and a missing one), with announcement and GET_END, if and only if that fits |
| `Client.PutFile` | tools/client_daemon.py:147-159 | the frames of an upload: begin, chunks of 4096, end |
| `Client.Demux` | tools/client_daemon.py:109-124 | stream frames per request in order, the latest reply per request, pings in order |
| `Client.GetFile` | tools/client_daemon.py:175-190 | the chunk payloads up to the first GET_END |
| `Client.CollectChunks` | tools/client_daemon.py:185-189 | chunks followed by the end collect to their concatenation |
| `Client.ParseReply` | tools/client_daemon.py:63-69 | the fields of a reply: its lines, split at the first '=', a later line overriding an earlier one |
| `Client.ReadsBack` | tools/client_daemon.py:63-69 | the client reads back every field of a text of distinct keys and values on one line each |
| `Replies.FrameAnswered` | src/protocol.c:59-138 | every frame but GET_BEGIN is answered with exactly the frames that the observed state calls for: the acknowledgement with its fields, the error with its code and message, or nothing |
| `Conversation.AnsweredOnWire` | src/protocol.c:59-138 | after any run, a read of one frame puts exactly that answer on the queue |
| `Conversation.ClientGetsAnswer` | tools/client_daemon.py:132-142 | a request whose answer is one reply that the queue takes: the client finds it under the request's id |
| `Conversation.BeginAcknowledged` | tools/client_daemon.py:147-155 | put_file's PUT_BEGIN gets its ACK with transfer id, path and size |
| `Conversation.EndAcknowledged` | tools/client_daemon.py:156-165 | the PUT_END of a complete upload gets its ACK with path and number of bytes |
| `Conversation.GetRefused` | src/transfer.c:357-424 | GET_BEGIN without a path, or for a file that does not open, cannot be examined or cannot be announced, gets the error that says so |
| `Conversation.ReadFailedText` | src/transfer.c:456-459 | the error that ends a download whose file cannot be read on |
| `Conversation.OutputFrame` | src/proc.c:177-184 | at any reachable moment without overlap, output gives one STDOUT or STDERR frame with the run's id and exactly the bytes |
| `Conversation.ExitFrame` | src/proc.c:202-226 | an exit gives one EXIT frame with the run's id, code and reason, "exit" if and only if no kill was tried; it always fits its buffer |
| `Conversation.HeartbeatExactly` | src/session.c:80-110 | after any run: a tick closes after 15000 ms of silence; else it sends a PING with the next id exactly after 5000 ms without a send and the error of a stalled upload exactly if there is one |
| `Conversation.TickCloses` | src/session.c:80-110 | a tick closes an open session if and only if it was silent for 15000 ms or its frames overrun the queue |
| `Conversation.BeginFields` | src/transfer.c:245-256 | the client reads status, transfer id, path and size in the reply to PUT_BEGIN and GET_BEGIN |
| `Conversation.EndFields` | src/transfer.c:339-348 | the client reads status, path and bytes in the reply to PUT_END |
| `Conversation.SpawnedFields` | src/proc.c:439-446 | the client reads status, child id and path in the reply to PROC_SPAWN |
| `Conversation.ExitFields` | src/proc.c:217-221 | the client reads child id, exit code and reason in EXIT |
| `Conversation.ErrorFields` | src/session.c:250-262 | the client reads the code and the message of an error |
| `Conversation.SpawnAsked` | src/proc.c:326-490 | for any bytes in path and list, the child is started with exactly these if and only if they satisfy the round-trip condition; plain requests start with their own time limits |
| `Conversation.SpawnRead` | tools/client_daemon.py:192-196 | the same for a reachable session that reads the request |
| `Conversation.KillId` | src/proc.c:86-104 | the id a KILL names: a number in at most 31 characters, taken modulo 2^32, or none |
| `Conversation.KillAsked` | src/proc.c:492-522 | KILL kills the running child, as requested, if and only if the id is its own, and otherwise leaves the child alone |
| `Conversation.UploadCounts` | src/diag.c:236-246 | which upload frames count a start, an abort or a completion, and that no other frame but GET_BEGIN counts |
| `EndToEnd.BeginReadBack` | src/transfer.c:201-205 | the agent reads back the client's path and size |
| `EndToEnd.TakesBegin` | src/transfer.c:186-257 | the begin frame of an upload opens an empty temporary file and keeps the session open |
| `EndToEnd.TakesChunk` | src/transfer.c:277-297 | a chunk extends the temporary file by exactly its bytes |
| `EndToEnd.TakesEnd` | src/transfer.c:317-353 | the end frame leaves exactly the bytes at the path and an idle slot |
| `EndToEnd.UploadEndToEnd` | tools/client_daemon.py:147-159 | for every data and every fragmentation, with write completions in between and file calls that succeed, the destination ends holding exactly the data |
| `Portfwd.Engine.constructor` | src/portfwd.c:61-65 | an empty list, no relay yet, and next id 1 |
| `Portfwd.Engine.OpenRelay` | src/portfwd.c:348-425 | the id is used up in any case; on success the relay heads the list and its owner's counter goes up; listed relays are open, all others closing |
| `Portfwd.Engine.Remove` | src/portfwd.c:294-305 | the list loses exactly that relay, by redirecting one pointer |
| `Portfwd.Engine.Destroy` | src/portfwd.c:307-320 | a relay is marked closing and removed once |
| `Portfwd.Engine.CloseById` | src/portfwd.c:427-443 | the first relay with the id goes, starts closing and is counted for its owner; nothing changes if there is none; listed relays are open, all others closing |
| `Portfwd.Engine.Visit` | src/portfwd.c:339-345 | one turn of the walk that destroys relays under its feet |
| `Portfwd.Engine.CloseSession` | src/portfwd.c:334-346 | the list becomes the other sessions' relays in order, all of them open; exactly the session's relays start closing |
| `Relays.CloseOwnerExact` | src/portfwd.c:334-346 | closing a session leaves it no relay and every other session the same relays in the same order |
| `Relays.RelaysBelongToLiveSessions` | src/portfwd.c:334-443 | over every run each listed relay has an owner not yet freed, and opens minus closes is the number of the session's relays |
| `Relays.Replay` | src/portfwd.c:294-443 | any run of the agent done in place on the linked list gives the table of the run, and every relay that is not closing belongs to a session not yet freed |
| `Relays.IdsDistinct` | src/portfwd.c:365 | two listed relays share an id if and only if their opens are a multiple of 2^32 apart |
| `Relays.CloseExactly` | src/portfwd.c:427-443 | after any run closing an id succeeds if and only if a listed relay has it; the newest one goes, the others stay in order, and none with the id is left within 2^32 opens |
| `RelayConn.Relayed.RelayForward` | src/portfwd.c:138-186 | forwards into the direction's queue, or starts closing on overflow or a refused write |
| `RelayConn.Relayed.RelayWriteCb` | src/portfwd.c:115-136 | a completed write leaves the account; a failed one starts closing |
| `RelayConn.WrittenKeeps` | src/portfwd.c:115-136 | the guards of the completion callback always hold |
| `RelayConn.RelayFaithful` | src/portfwd.c:115-203 | over every run, per direction: exact account within 262144 bytes, output a prefix of input, nothing lost while not closing |
| `RelayConn.ClosingExactly` | src/portfwd.c:115-203 | a connection is closing if and only if data did not fit or was refused, a write failed, or a side ended |
| `Diag.Log.RotateLogsIfNeeded` | src/diag.c:72-105 | the loop of renames shifts the log and its backups by one |
| `Diag.Log.DiagLog` | src/diag.c:146-176 | a line at or below the level is appended, after a rotation if the log would reach 1 MiB |
| `Diag.Retention` | src/diag.c:72-176 | backups contiguous, each file below 1 MiB, the kept files a suffix of everything logged, all of it until the third backup exists |

## Left out

- Lifetime.ReleaseRef: does not close the session's relays, because they are a table of the whole agent; that half of the free is `Relays.Step` and `Portfwd.Engine.CloseSession`.
- Argv.SpawnArgs: states what becomes of plain arguments only; for arguments with CR, LF or NUL `Argv.SpawnRoundTrip` says that they never arrive as sent.
- A process handle that a refused uv_spawn may leave behind: only the two pipes are.
- The order in which libuv finishes closing handles: a detached pipe may end at any later time.
- A failed uv_timer_start, which closes the timer twice, and failed accepts: sessions start with every call of the accept succeeding.
- Out of memory: malloc, calloc and strdup succeed.
- Overlapping children: what libuv does when a handle it holds is initialised again is undefined; the reference and child theorems carry the condition that no spawn overlapped, and `Theorems.RespawnExactly`, `Witnesses.RespawnTooEarly` and `Witnesses.RespawnOverDetached` show that it is needed.
- Other writers of the same files: each session is modelled with the file system to itself.
- A write with an offset of 2^63 or more, and uploads that declare such a size: the content statements exclude them.
- strtoul where unsigned long has 32 bits: the child id of KILL is read as a 64-bit number and cut to 32 bits.
- The order in which a relay record and its connection record are released, a failed uv_accept on a relay listener, and connection set-up: only the relay list and the forwarding of data are modelled.
- The Lua ops other than the argument list of tool.run, and the bindings between Lua and C: an OP frame does any sequence of replies, errors and spawns.
- The remaining counters (protocol errors, Lua failures, heartbeats, child and disconnect counts), wire tracing and the text of log lines: they would only add easy members.
- The client's control socket, threads, locks and deadlines; and in its parser of replies UTF-8 decoding and the line breaks outside ASCII.
- hello.c, an earlier prototype.
