/** The transport as it runs: one builder, one tag parser and the local
    variables of `_stream_response_impl`, updated chunk by chunk. */
module TransportObject {
  import opened Common
  import opened StreamContract
  import opened SseBuilding
  import opened ThinkTags
  import opened OpenAiTransport

  class ResponseStream {
    const env: Env
    const sse: SseBuilder
    const parser: ThinkTagParser
    var aliasKeys: seq<int>
    var aliasTexts: map<int, string>
    var fed: seq<string>
    var finishReason: string
    ghost var calls: seq<(int, ToolDelta)>

    ghost function Abs(failed: bool): Conn
      reads this, sse, parser
    {
      Conn(sse.Abs(), Buffers(aliasKeys, aliasTexts), parser.buffer, parser.inThinkTag, fed, finishReason, calls,
          failed)
    }

    constructor (env: Env)
      ensures this.env == env && fresh(sse) && fresh(parser)
      ensures Abs(false) == NEW_CONN
    {
      this.env := env;
      var builder := new SseBuilder();
      builder.FormatEvent(MessageStart);
      sse := builder;
      parser := new ThinkTagParser();
      aliasKeys, aliasTexts, fed, finishReason, calls := [], map[], [], "", [];
    }

    method PopAlias(t: int)
      modifies this
      ensures Abs(false) == old(Abs(false)).(aliasBuffers := PopBuffer(old(Abs(false)).aliasBuffers, t))
    {
      aliasKeys := Without(aliasKeys, t);
      aliasTexts := aliasTexts - {t};
    }

    method EmitToolArgDelta(t: int, args: string) returns (failed: bool)
      modifies this, sse
      ensures Abs(failed) == EmitToolArg(env, old(Abs(false)), t, args)
    {
      failed := false;
      if args == "" || t !in sse.toolStates {
        return;
      }
      var name := sse.toolStates[t].name;
      if name == "Task" {
        var json;
        json, failed := sse.DoBufferTaskArgs(t, args, env.parseTask);
        if !failed && json.Some? {
          sse.DoEmitToolDelta(t, json.value);
        }
        return;
      }
      if env.aliased(name) {
        var buffered := (if t in aliasTexts then aliasTexts[t] else "") + args;
        var restored := env.restore(name, buffered);
        if restored.None? {
          if t !in aliasTexts {
            aliasKeys := aliasKeys + [t];
          }
          aliasTexts := aliasTexts[t := buffered];
          return;
        }
        PopAlias(t);
        sse.DoEmitToolDelta(t, restored.value);
        return;
      }
      sse.DoEmitToolDelta(t, args);
    }

    method RegisterCall(tc: ToolDelta) returns (t: int)
      modifies this, sse
      ensures t == ResolveIndex(old(Abs(false)).b, tc.index)
      ensures Abs(false) == old(Abs(false)).(b := Register(old(Abs(false)).b, t, tc),
                                             calls := old(calls) + [(t, tc)])
    {
      t := if tc.index < 0 then |sse.toolStates| else tc.index;
      calls := calls + [(t, tc)];
      if tc.id.Some? {
        sse.DoSetStreamToolId(t, tc.id.value);
      }
      if tc.name.Some? {
        sse.DoRegisterToolName(t, tc.name.value);
      }
    }

    method StartWhenNamed(t: int, tc: ToolDelta) returns (failed: bool)
      modifies this, sse
      ensures Abs(failed) == StartIfNamed(env, old(Abs(false)), t, tc)
    {
      failed := false;
      if Started(sse.Abs(), t) || IsBlank(NameOf(sse.Abs(), t)) {
        return;
      }
      var id := ResolvedId(sse.Abs(), t, tc);
      sse.DoStartToolBlock(t, if id != "" then Given(id) else Generated(t), id, Strip(NameOf(sse.Abs(), t)));
      var state := sse.toolStates[t];
      if state.preStartArgs != "" {
        sse.StoreTool(t, state.(preStartArgs := ""));
        failed := EmitToolArgDelta(t, state.preStartArgs);
      }
    }

    method DoProcessToolCall(tc: ToolDelta) returns (failed: bool)
      modifies this, sse
      ensures Abs(failed) == ProcessToolCall(env, old(Abs(false)), tc)
    {
      var t := RegisterCall(tc);
      failed := StartWhenNamed(t, tc);
      if failed || tc.args == "" {
        return;
      }
      if !Started(sse.Abs(), t) {
        sse.DoEnsureToolState(t);
        var state := sse.toolStates[t];
        sse.StoreTool(t, state.(preStartArgs := state.preStartArgs + tc.args));
        return;
      }
      failed := EmitToolArgDelta(t, tc.args);
    }

    method DoProcessToolCalls(tcs: seq<ToolDelta>) returns (failed: bool)
      modifies this, sse
      ensures Abs(failed) == ProcessToolCalls(env, old(Abs(false)), tcs)
    {
      failed := false;
      var n := 0;
      while n < |tcs|
        invariant 0 <= n <= |tcs| && !failed
        invariant Abs(false) == ProcessToolCalls(env, old(Abs(false)), tcs[..n])
      {
        assert tcs[..n + 1][..n] == tcs[..n];
        failed := DoProcessToolCall(tcs[n]);
        n := n + 1;
        if failed {
          FailureStays(env, old(Abs(false)), tcs, n);
          return;
        }
      }
      assert tcs[..n] == tcs;
    }

    method IterHeuristicToolUse(tools: seq<HeuristicTool>)
      modifies sse
      ensures sse.Abs() == EmitHeuristicTools(env, old(sse.Abs()), tools)
    {
      hide CloseContentBlocks;
      var n := 0;
      while n < |tools|
        invariant 0 <= n <= |tools|
        invariant sse.Abs() == EmitHeuristicTools(env, old(sse.Abs()), tools[..n])
      {
        assert tools[..n + 1][..n] == tools[..n];
        var tool := tools[n];
        var input := if tool.name == "Task" then env.foreground(tool.input) else tool.input;
        sse.DoCloseContentBlocks();
        var index := sse.AllocateIndex();
        sse.FormatEvent(BlockStart(index, ToolBlock(Given(tool.id), tool.name)));
        sse.FormatEvent(BlockDelta(index, Delta(InputJsonDelta, input)));
        sse.FormatEvent(BlockStop(index));
        n := n + 1;
      }
      assert tools[..n] == tools;
    }

    method Think(content: string)
      modifies sse
      ensures sse.Abs() == EmitThinking(old(sse.Abs()), content)
    {
      sse.DoEnsureThinkingBlock();
      sse.DoEmitThinkingDelta(content);
    }

    method Say(content: string)
      modifies sse
      ensures sse.Abs() == EmitText(old(sse.Abs()), content)
    {
      sse.DoEnsureTextBlock();
      sse.DoEmitTextDelta(content);
    }

    method DoEmitPart(part: ContentChunk)
      modifies this, sse
      ensures Abs(false) == EmitPart(env, old(Abs(false)), part)
    {
      if part.thinking {
        if env.thinking {
          Think(part.content);
        }
        return;
      }
      fed := fed + [part.content];
      var (filtered, tools) := env.heuristic(fed);
      if filtered != "" {
        Say(filtered);
      }
      IterHeuristicToolUse(tools);
    }

    method DoProcessContent(content: string)
      modifies this, sse, parser
      ensures Abs(false) == ProcessContent(env, old(Abs(false)), content)
    {
      var parts := parser.Feed(content);
      ghost var c := Abs(false);
      var n := 0;
      while n < |parts|
        invariant 0 <= n <= |parts|
        invariant Abs(false) == EmitParts(env, c, parts[..n])
      {
        assert parts[..n + 1][..n] == parts[..n];
        DoEmitPart(parts[n]);
        n := n + 1;
      }
      assert parts[..n] == parts;
    }

    method DoProcessChunk(chunk: Chunk) returns (failed: bool)
      modifies this, sse, parser
      ensures Abs(failed) == ProcessChunk(env, old(Abs(false)), chunk)
    {
      hide ProcessContent, EmitThinking, CloseContentBlocks, ProcessToolCall;
      if !chunk.hasDelta {
        return false;
      }
      if chunk.finishReason != "" {
        finishReason := chunk.finishReason;
      }
      if env.thinking && chunk.reasoning != "" {
        Think(chunk.reasoning);
      }
      if chunk.content != "" {
        DoProcessContent(chunk.content);
      }
      if chunk.tools == [] {
        return false;
      }
      sse.DoCloseContentBlocks();
      failed := DoProcessToolCalls(chunk.tools);
    }

    method DoFailResponse(message: string)
      modifies sse
      ensures sse.Abs() == FailResponse(old(sse.Abs()), message)
    {
      sse.DoCloseAllBlocks();
      if exists t :: t in sse.toolStates && sse.toolStates[t].started {
        sse.FormatEvent(ErrorEvent(message));
      } else {
        sse.DoEmitError(message);
      }
      sse.FormatEvent(MessageDelta("end_turn"));
      sse.FormatEvent(MessageStop);
    }

    method DoFlushThink()
      modifies this, sse, parser
      ensures Abs(false) == FlushThink(env, old(Abs(false)))
    {
      var flushed := parser.Flush();
      if flushed != [] {
        var remaining := flushed[0];
        if !remaining.thinking {
          Say(remaining.content);
        } else if env.thinking {
          Think(remaining.content);
        }
      }
    }

    method DoEnsureContent()
      modifies sse
      ensures sse.Abs() == EnsureContent(old(sse.Abs()))
    {
      var hasStartedTool := exists t :: t in sse.toolStates && sse.toolStates[t].started;
      if sse.textIndex == -1 && sse.thinkingIndex == -1 && !hasStartedTool {
        Say(" ");
      } else if !hasStartedTool && IsBlank(sse.accumulatedText) && !IsBlank(sse.accumulatedReasoning) {
        Say(" ");
      }
    }

    method DoComplete()
      modifies this, sse, parser
      ensures Abs(false) == Complete(env, old(Abs(false)))
    {
      DoFlushThink();
      IterHeuristicToolUse(env.heuristicFlush(fed));
      DoEnsureContent();
    }

    method DoFlushAliases()
      modifies this, sse
      ensures Abs(false) == FlushAliases(env, old(Abs(false)), old(aliasKeys))
    {
      var keys := aliasKeys;
      var n := 0;
      while n < |keys|
        invariant 0 <= n <= |keys|
        invariant Abs(false) == FlushAliases(env, old(Abs(false)), keys[..n])
      {
        assert keys[..n + 1][..n] == keys[..n];
        var t := keys[n];
        var text := if t in aliasTexts then aliasTexts[t] else "";
        if text == "" {
          PopAlias(t);
        } else if t in sse.toolStates && sse.toolStates[t].name != "Task" && env.aliased(sse.toolStates[t].name) {
          var restored := env.restore(sse.toolStates[t].name, text);
          sse.DoEmitToolDelta(t, if restored.Some? then restored.value else text);
          PopAlias(t);
        }
        n := n + 1;
      }
      assert keys[..n] == keys;
    }

    method DoFinishResponse()
      modifies this, sse, parser
      ensures sse.Abs() == FinishResponse(env, old(Abs(false)))
    {
      var reason := finishReason;
      DoComplete();
      DoFlushAliases();
      sse.DoFlushTaskArgBuffers(env.parseTask);
      sse.DoCloseAllBlocks();
      sse.FormatEvent(MessageDelta(StopReason(reason)));
      sse.FormatEvent(MessageStop);
    }
  }

  lemma {:induction false} FailureStays(env: Env, c: Conn, tcs: seq<ToolDelta>, n: nat)
    requires n <= |tcs| && ProcessToolCalls(env, c, tcs[..n]).failed
    ensures ProcessToolCalls(env, c, tcs) == ProcessToolCalls(env, c, tcs[..n])
    decreases |tcs|
  {
    if n == |tcs| {
      assert tcs[..n] == tcs;
    } else {
      assert tcs[..|tcs| - 1][..n] == tcs[..n];
      FailureStays(env, c, tcs[..|tcs| - 1], n);
    }
  }

  lemma {:induction false} FailedChunksStay(env: Env, chunks: seq<Chunk>, n: nat)
    requires n <= |chunks| && ProcessChunks(env, chunks[..n]).failed
    ensures ProcessChunks(env, chunks) == ProcessChunks(env, chunks[..n])
    decreases |chunks|
  {
    if n == |chunks| {
      assert chunks[..n] == chunks;
    } else {
      assert chunks[..|chunks| - 1][..n] == chunks[..n];
      FailedChunksStay(env, chunks[..|chunks| - 1], n);
    }
  }

  /** `_stream_response_impl`: the events of one response. */
  method StreamResponseImpl(env: Env, chunks: seq<Chunk>, broken: bool, message: string) returns (out: seq<Event>)
    ensures out == StreamResponse(env, chunks, broken, message).emitted
  {
    var stream := new ResponseStream(env);
    var failed := false;
    var n := 0;
    while n < |chunks| && !failed
      invariant 0 <= n <= |chunks|
      invariant fresh(stream) && fresh(stream.sse) && fresh(stream.parser) && stream.env == env
      invariant stream.Abs(failed) == ProcessChunks(env, chunks[..n])
    {
      assert chunks[..n + 1][..n] == chunks[..n];
      failed := stream.DoProcessChunk(chunks[n]);
      n := n + 1;
    }
    FinishedOrFailed(env, chunks, n, failed);
    if failed || broken {
      stream.DoFailResponse(message);
    } else {
      stream.DoFinishResponse();
    }
    out := stream.sse.emitted;
  }

  lemma FinishedOrFailed(env: Env, chunks: seq<Chunk>, n: nat, failed: bool)
    requires n <= |chunks| && failed == ProcessChunks(env, chunks[..n]).failed
    requires n == |chunks| || failed
    ensures ProcessChunks(env, chunks) == ProcessChunks(env, chunks[..n])
  {
    if failed {
      FailedChunksStay(env, chunks, n);
    } else {
      assert chunks[..n] == chunks;
    }
  }
}
