/** src/protocol.c: routing of one frame to its handler. */
module Protocol {
  import opened Bytes
  import opened Frame
  import opened Stream
  import opened SessionState
  import opened Transfers
  import opened Procs

  function HelloReply(): bytes { Ascii("status=ok\nmessage=hello") }
  function PongReply(): bytes { Ascii("status=ok") }

  /** One call from Lua into the session (src/bindings.c). */
  function LuaStep(c: Core, a: LuaAction, now: nat, env: Env): Core {
    match a
    case Reply(kind, reqId, text) => Tell(c, Message(kind, reqId, text), now, env)
    case ReplyError(reqId, code, text) => Fail(c, reqId, LuaError(code, text), now, env)
    case SpawnTool(path, argv, timeoutMs, idleTimeoutMs) =>
      if argv == [] then c else Spawn(c, 0, path, argv, timeoutMs, idleTimeoutMs, false, now, env)
  }

  function LuaSteps(c: Core, acts: seq<LuaAction>, now: nat, env: Env): Core
    decreases |acts|
  {
    if acts == [] then c else LuaSteps(LuaStep(c, acts[0], now, env), acts[1..], now, env)
  }

  /** The OP frame: whatever the Lua handler does, then an error if it failed. */
  function HandleOp(c: Core, reqId: u32, now: nat, env: Env): Core {
    var c1 := LuaSteps(c, env.lua, now, env);
    if env.luaOk then c1 else Fail(c1, reqId, LuaFailed, now, env)
  }

  function Dispatch(c: Core, m: Message, now: nat, env: Env): Core {
    if m.kind == PUT_CHUNK then PutChunk(c, m.reqId, m.payload, now, env)
    else if m.kind == PUT_END then PutEnd(c, m.reqId, now, env)
    else if m.kind == HELLO then Tell(c, Message(ACK, m.reqId, HelloReply()), now, env)
    else if m.kind == PING then Tell(c, Message(PONG, m.reqId, PongReply()), now, env)
    else if m.kind == OP then HandleOp(c, m.reqId, now, env)
    else if m.kind == PUT_BEGIN then PutBegin(c, m.reqId, m.payload, now, env)
    else if m.kind == GET_BEGIN then GetBegin(c, m.reqId, m.payload, now, env)
    else if m.kind == PROC_SPAWN then HandleSpawn(c, m.reqId, m.payload, now, env)
    else if m.kind == KILL then HandleKill(c, m.reqId, m.payload, now, env)
    else Fail(c, m.reqId, BadType, now, env)
  }

  method HandleOpFrame(s: Session, reqId: u32, now: nat, env: Env)
    modifies s`net, s`proc, s`nextProcId
    ensures s.State() == HandleOp(old(s.State()), reqId, now, env)
  {
    hide Send, SendError, Spawn;
    var i := 0;
    while i < |env.lua|
      invariant 0 <= i <= |env.lua|
      invariant LuaSteps(s.State(), env.lua[i..], now, env) == LuaSteps(old(s.State()), env.lua, now, env)
    {
      var a := env.lua[i];
      assert env.lua[i..][1..] == env.lua[i + 1..];
      match a {
        case Reply(kind, id, text) =>
          var _ := SendFrame(s, Message(kind, id, text), now, env);
        case ReplyError(id, code, text) =>
          SendErrorFrame(s, id, LuaError(code, text), now, env);
        case SpawnTool(path, argv, timeoutMs, idleTimeoutMs) =>
          if argv != [] {
            SpawnCommon(s, 0, path, argv, timeoutMs, idleTimeoutMs, false, now, env);
          }
      }
      i := i + 1;
    }
    if !env.luaOk {
      SendErrorFrame(s, reqId, LuaFailed, now, env);
    }
  }

  method HandleControl(s: Session, m: Message, now: nat, env: Env)
    requires |m.payload| <= MAX_FRAME_PAYLOAD
    modifies s`net, s`upload, s`download, s`fs, s`tally, s`proc, s`nextProcId
    ensures s.State() == Dispatch(old(s.State()), m, now, env)
  {
    hide Send, SendError, PutChunk, PutEnd, PutBegin, GetBegin, HandleOp, HandleSpawn, HandleKill,
         HelloReply, PongReply;
    if m.kind == PUT_CHUNK {
      HandlePutChunk(s, m.reqId, m.payload, now, env);
    } else if m.kind == PUT_END {
      HandlePutEnd(s, m.reqId, now, env);
    } else if m.kind == HELLO {
      var _ := SendFrame(s, Message(ACK, m.reqId, HelloReply()), now, env);
    } else if m.kind == PING {
      var _ := SendFrame(s, Message(PONG, m.reqId, PongReply()), now, env);
    } else if m.kind == OP {
      HandleOpFrame(s, m.reqId, now, env);
    } else if m.kind == PUT_BEGIN {
      HandlePutBegin(s, m.reqId, m.payload, now, env);
    } else if m.kind == GET_BEGIN {
      HandleGetBegin(s, m.reqId, m.payload, now, env);
    } else if m.kind == PROC_SPAWN {
      HandleSpawnFrame(s, m.reqId, m.payload, now, env);
    } else if m.kind == KILL {
      HandleKillFrame(s, m.reqId, m.payload, now, env);
    } else {
      SendErrorFrame(s, m.reqId, BadType, now, env);
    }
  }
}
