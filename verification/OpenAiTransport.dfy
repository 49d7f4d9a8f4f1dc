/** Compiling a stream of OpenAI chat chunks into Anthropic events
    (proxy/providers/openai_compat.py, `_stream_response_impl` and helpers). */
module OpenAiTransport {
  import opened Common
  import opened StreamContract
  import opened SseBuilding
  import opened ThinkTags

  /** `name` and `args` as they arrive; absent arguments are the empty string. */
  datatype ToolDelta = ToolDelta(index: int, id: Option<string>, name: Option<string>, args: string)

  /** Absent text fields are empty strings; `hasDelta` is false for a chunk
      without choices or without a delta. */
  datatype Chunk = Chunk(hasDelta: bool, finishReason: string, reasoning: string, content: string,
      tools: seq<ToolDelta>)

  datatype HeuristicTool = HeuristicTool(id: string, name: string, input: string)

  /** Everything the transport calls but does not define.  The heuristic parser
      is any function of the texts it has been fed. */
  datatype Env = Env(
    thinking: bool,
    parseTask: string -> TaskParse,
    aliased: string -> bool,
    restore: (string, string) -> Option<string>,
    heuristic: seq<string> -> (string, seq<HeuristicTool>),
    heuristicFlush: seq<string> -> seq<HeuristicTool>,
    foreground: string -> string)

  /** An insertion-ordered dictionary of strings. */
  datatype Buffers = Buffers(keys: seq<int>, texts: map<int, string>)

  const NO_BUFFERS: Buffers := Buffers([], map[])

  function BufferedText(buffers: Buffers, t: int): string {
    if t in buffers.texts then buffers.texts[t] else ""
  }

  function PutBuffer(buffers: Buffers, t: int, text: string): Buffers {
    Buffers(if t in buffers.texts then buffers.keys else buffers.keys + [t], buffers.texts[t := text])
  }

  function Without(keys: seq<int>, t: int): seq<int> {
    if keys == [] then []
    else Without(keys[..|keys| - 1], t) + if keys[|keys| - 1] == t then [] else [keys[|keys| - 1]]
  }

  function PopBuffer(buffers: Buffers, t: int): Buffers {
    Buffers(Without(buffers.keys, t), buffers.texts - {t})
  }

  /** The state of one response.  `calls` logs every tool delta with the index
      it was resolved to; `failed` is set by an exception inside a chunk. */
  datatype Conn = Conn(
    b: Builder,
    aliasBuffers: Buffers,
    thinkBuffer: string,
    inThink: bool,
    fed: seq<string>,
    finishReason: string,
    calls: seq<(int, ToolDelta)>,
    failed: bool)

  const NEW_CONN: Conn := Conn(Emit(NEW_BUILDER, MessageStart), NO_BUFFERS, "", false, [], "", [], false)

  // --- tool calls ------------------------------------------------------------------------

  /** `_emit_tool_arg_delta` */
  function EmitToolArg(env: Env, c: Conn, t: int, args: string): Conn {
    if args == "" || t !in c.b.tools then c
    else
      var name := c.b.tools[t].name;
      if name == "Task" then
        var r := BufferTaskArgs(c.b, t, args, env.parseTask);
        if r.failed then c.(b := r.b, failed := true)
        else if r.json.Some? && t in r.b.tools then c.(b := EmitToolDelta(r.b, t, r.json.value))
        else c.(b := r.b)
      else if env.aliased(name) then
        var buffered := BufferedText(c.aliasBuffers, t) + args;
        var restored := env.restore(name, buffered);
        if restored.None? then c.(aliasBuffers := PutBuffer(c.aliasBuffers, t, buffered))
        else c.(aliasBuffers := PopBuffer(c.aliasBuffers, t), b := EmitToolDelta(c.b, t, restored.value))
      else c.(b := EmitToolDelta(c.b, t, args))
  }

  function ResolveIndex(b: Builder, index: int): int {
    if index < 0 then |b.tools| else index
  }

  /** Recording the id and the name fragment of a tool delta. */
  function Register(b: Builder, t: int, tc: ToolDelta): Builder {
    var withId := if tc.id.Some? then SetStreamToolId(b, t, tc.id.value) else b;
    if tc.name.Some? then RegisterToolName(withId, t, tc.name.value) else withId
  }

  function NameOf(b: Builder, t: int): string {
    if t in b.tools then b.tools[t].name else ""
  }

  function ResolvedId(b: Builder, t: int, tc: ToolDelta): string {
    if t in b.tools && b.tools[t].toolId != "" then b.tools[t].toolId
    else if tc.id.Some? then tc.id.value else ""
  }

  predicate Started(b: Builder, t: int) {
    t in b.tools && b.tools[t].started
  }

  function StartTool(b: Builder, t: int, tc: ToolDelta): Builder {
    var id := ResolvedId(b, t, tc);
    StartToolBlock(b, t, if id != "" then Given(id) else Generated(t), id, Strip(NameOf(b, t)))
  }

  /** Starting the block once the name is known, and sending what was held. */
  function StartIfNamed(env: Env, c: Conn, t: int, tc: ToolDelta): Conn {
    if Started(c.b, t) || IsBlank(NameOf(c.b, t)) then c
    else
      var b := StartTool(c.b, t, tc);
      if t !in b.tools || b.tools[t].preStartArgs == "" then c.(b := b)
      else
        var pre := b.tools[t].preStartArgs;
        EmitToolArg(env, c.(b := PutTool(b, t, b.tools[t].(preStartArgs := ""))), t, pre)
  }

  /** Arguments of a tool whose name has not arrived are held back. */
  function HoldArgs(b: Builder, t: int, args: string): Builder {
    var c := EnsureToolState(b, t);
    PutTool(c, t, c.tools[t].(preStartArgs := c.tools[t].preStartArgs + args))
  }

  /** `_process_tool_call` */
  function ProcessToolCall(env: Env, c0: Conn, tc: ToolDelta): Conn {
    var t := ResolveIndex(c0.b, tc.index);
    var c1 := c0.(b := Register(c0.b, t, tc), calls := c0.calls + [(t, tc)]);
    var c2 := StartIfNamed(env, c1, t, tc);
    if c2.failed || tc.args == "" then c2
    else if !Started(c2.b, t) then c2.(b := HoldArgs(c2.b, t, tc.args))
    else EmitToolArg(env, c2, t, tc.args)
  }

  function ProcessToolCalls(env: Env, c: Conn, tcs: seq<ToolDelta>): Conn {
    if tcs == [] then c
    else
      var d := ProcessToolCalls(env, c, tcs[..|tcs| - 1]);
      if d.failed then d else ProcessToolCall(env, d, tcs[|tcs| - 1])
  }

  // --- text -------------------------------------------------------------------------------

  /** `_iter_heuristic_tool_use_sse` */
  function EmitHeuristicTool(env: Env, b: Builder, tool: HeuristicTool): Builder {
    var c := CloseContentBlocks(b);
    var i := c.next;
    var input := if tool.name == "Task" then env.foreground(tool.input) else tool.input;
    Emit(Emit(Emit(c.(next := i + 1),
                   BlockStart(i, ToolBlock(Given(tool.id), tool.name))),
              BlockDelta(i, Delta(InputJsonDelta, input))),
         BlockStop(i))
  }

  function EmitHeuristicTools(env: Env, b: Builder, tools: seq<HeuristicTool>): Builder {
    if tools == [] then b
    else EmitHeuristicTool(env, EmitHeuristicTools(env, b, tools[..|tools| - 1]), tools[|tools| - 1])
  }

  function EmitThinking(b: Builder, content: string): Builder {
    EmitThinkingDelta(EnsureThinkingBlock(b), content)
  }

  function EmitText(b: Builder, content: string): Builder {
    EmitTextDelta(EnsureTextBlock(b), content)
  }

  function EmitPart(env: Env, c: Conn, part: ContentChunk): Conn {
    if part.thinking then
      if env.thinking then c.(b := EmitThinking(c.b, part.content)) else c
    else
      var fed := c.fed + [part.content];
      var (filtered, tools) := env.heuristic(fed);
      var b := if filtered == "" then c.b else EmitText(c.b, filtered);
      c.(fed := fed, b := EmitHeuristicTools(env, b, tools))
  }

  function EmitParts(env: Env, c: Conn, parts: seq<ContentChunk>): Conn {
    if parts == [] then c
    else EmitPart(env, EmitParts(env, c, parts[..|parts| - 1]), parts[|parts| - 1])
  }

  function ProcessContent(env: Env, c: Conn, content: string): Conn {
    var (parts, buffer, inside) := FeedLoop(c.thinkBuffer + content, c.inThink);
    EmitParts(env, c.(thinkBuffer := buffer, inThink := inside), parts)
  }

  function NoteReasoning(env: Env, c: Conn, chunk: Chunk): Conn {
    var d := if chunk.finishReason != "" then c.(finishReason := chunk.finishReason) else c;
    if env.thinking && chunk.reasoning != "" then d.(b := EmitThinking(d.b, chunk.reasoning)) else d
  }

  function NoteContent(env: Env, c: Conn, chunk: Chunk): Conn {
    if chunk.content != "" then ProcessContent(env, c, chunk.content) else c
  }

  /** The connection just before the tool deltas of a chunk. */
  function BeforeTools(env: Env, c: Conn, chunk: Chunk): Conn {
    var d := NoteContent(env, NoteReasoning(env, c, chunk), chunk);
    if chunk.tools == [] then d else d.(b := CloseContentBlocks(d.b))
  }

  /** One iteration of the chunk loop. */
  function ProcessChunk(env: Env, c: Conn, chunk: Chunk): Conn {
    if chunk.hasDelta then ProcessToolCalls(env, BeforeTools(env, c, chunk), chunk.tools) else c
  }

  function ProcessChunks(env: Env, chunks: seq<Chunk>): Conn {
    if chunks == [] then NEW_CONN
    else
      var c := ProcessChunks(env, chunks[..|chunks| - 1]);
      if c.failed then c else ProcessChunk(env, c, chunks[|chunks| - 1])
  }

  // --- the end of a response -----------------------------------------------------------------

  function FailResponse(b: Builder, message: string): Builder {
    var c := CloseAllBlocks(b);
    var d := if HasEmittedToolBlock(c) then Emit(c, ErrorEvent(message)) else EmitError(c, message);
    Emit(Emit(d, MessageDelta("end_turn")), MessageStop)
  }

  function FlushThink(env: Env, c: Conn): Conn {
    if c.thinkBuffer == "" then c
    else
      var d := c.(thinkBuffer := "");
      if !c.inThink then d.(b := EmitText(c.b, c.thinkBuffer))
      else if env.thinking then d.(b := EmitThinking(c.b, c.thinkBuffer))
      else d
  }

  /** A message without content, or with reasoning only, gets a text block. */
  function EnsureContent(b: Builder): Builder {
    if b.textIndex == -1 && b.thinkingIndex == -1 && !HasEmittedToolBlock(b) then EmitText(b, " ")
    else if !HasEmittedToolBlock(b) && IsBlank(b.accumulatedText) && !IsBlank(b.accumulatedReasoning) then
      EmitText(b, " ")
    else b
  }

  predicate NeedsAliasFlush(env: Env, c: Conn, t: int) {
    t in c.b.tools && c.b.tools[t].name != "Task" && env.aliased(c.b.tools[t].name)
  }

  function FlushAlias(env: Env, c: Conn, t: int): Conn {
    var text := BufferedText(c.aliasBuffers, t);
    if text == "" then c.(aliasBuffers := PopBuffer(c.aliasBuffers, t))
    else if !NeedsAliasFlush(env, c, t) then c
    else
      var restored := env.restore(c.b.tools[t].name, text);
      c.(b := EmitToolDelta(c.b, t, if restored.Some? then restored.value else text),
         aliasBuffers := PopBuffer(c.aliasBuffers, t))
  }

  function FlushAliases(env: Env, c: Conn, keys: seq<int>): Conn {
    if keys == [] then c
    else FlushAlias(env, FlushAliases(env, c, keys[..|keys| - 1]), keys[|keys| - 1])
  }

  function StopReason(reason: string): string {
    if reason == "length" then "max_tokens"
    else if reason == "tool_calls" then "tool_use"
    else "end_turn"
  }

  /** The text still held back, the last heuristic tools and a block if there is none. */
  function Complete(env: Env, c0: Conn): Conn {
    var c1 := FlushThink(env, c0);
    var c2 := c1.(b := EmitHeuristicTools(env, c1.b, env.heuristicFlush(c1.fed)));
    c2.(b := EnsureContent(c2.b))
  }

  /** Everything pending has been sent; blocks may still be open. */
  function Drain(env: Env, c: Conn): Conn {
    var d := Complete(env, c);
    var e := FlushAliases(env, d, d.aliasBuffers.keys);
    e.(b := FlushTasks(e.b, e.b.order, env.parseTask))
  }

  function FinishResponse(env: Env, c: Conn): Builder {
    Emit(Emit(CloseAllBlocks(Drain(env, c).b), MessageDelta(StopReason(c.finishReason))), MessageStop)
  }

  /** The whole response: `broken` says that the upstream failed after the
      given chunks (or before the first, when there are none). */
  function StreamResponse(env: Env, chunks: seq<Chunk>, broken: bool, message: string): Builder {
    var c := ProcessChunks(env, chunks);
    if c.failed || broken then FailResponse(c.b, message) else FinishResponse(env, c)
  }
}
