/** The blocks of a response come one at a time: nothing is started while text or
    thinking is open. */
module TransportOrder {
  import opened Common
  import opened StreamContract
  import opened SseBuilding
  import opened ThinkTags
  import opened OpenAiTransport
  import C = ContractMeaning

  /** A block as it is started: empty, and only a tool has an id. */
  predicate StartsEmpty(block: Block) {
    match block.kind
    case Text => block == Block(Text, "", NoId, "", "")
    case Thinking => block == Block(Thinking, "", NoId, "", "")
    case ToolUse => block.text == "" && block.toolId != NoId && block.input == "{}"
    case _ => false
  }

  /** Block `i`, started at place `m`, is text or thinking and still open. */
  ghost predicate Speaking(es: seq<Event>, i: int, m: int) {
    C.OpenAt(es, i, m) && es[m].block.kind != ToolUse
  }

  /** Every start is empty and comes when no text or thinking is open. */
  ghost predicate InTurn(es: seq<Event>) {
    forall k | 0 <= k < |es| && es[k].BlockStart? ::
      StartsEmpty(es[k].block) && forall i, m :: !Speaking(es[..k], i, m)
  }

  // --- the invariant --------------------------------------------------------------------------

  /** The flags know what is speaking. */
  ghost predicate Known(b: Builder) {
    forall i, m | Speaking(b.emitted, i, m) ::
      (b.thinkingStarted && i == b.thinkingIndex) || (b.textStarted && i == b.textIndex)
  }

  ghost predicate Calm(b: Builder) {
    InTurn(b.emitted) && Known(b)
  }

  predicate Silent(b: Builder) {
    !b.thinkingStarted && !b.textStarted
  }

  /** No event has been added, and the flags are the same. */
  predicate Unheard(b: Builder, c: Builder) {
    && c.emitted == b.emitted
    && c.thinkingStarted == b.thinkingStarted && c.thinkingIndex == b.thinkingIndex
    && c.textStarted == b.textStarted && c.textIndex == b.textIndex
  }

  /** A flag stays as it is or its block is stopped. */
  predicate FlagsFollow(b: Builder, c: Builder, e: Event) {
    && (b.thinkingStarted ==>
          (c.thinkingStarted && c.thinkingIndex == b.thinkingIndex) || e == BlockStop(b.thinkingIndex))
    && (b.textStarted ==> (c.textStarted && c.textIndex == b.textIndex) || e == BlockStop(b.textIndex))
  }

  lemma InTurnOne(es: seq<Event>, e: Event)
    requires InTurn(es)
    requires e.BlockStart? ==> StartsEmpty(e.block) && forall i, m :: !Speaking(es, i, m)
    ensures InTurn(es + [e])
  {
    hide Speaking, StartsEmpty;
    var all := es + [e];
    forall k | 0 <= k < |all| && all[k].BlockStart?
      ensures StartsEmpty(all[k].block) && forall i, m :: !Speaking(all[..k], i, m)
    {
      assert all[..k] == if k < |es| then es[..k] else es;
    }
  }

  lemma CalmEvent(b: Builder, c: Builder, e: Event)
    requires Calm(b) && c.emitted == b.emitted + [e] && FlagsFollow(b, c, e)
    requires e.BlockStart? ==> StartsEmpty(e.block) && Silent(b)
    requires e.BlockStart? && e.block.kind != ToolUse ==>
               (c.thinkingStarted && c.thinkingIndex == e.index) || (c.textStarted && c.textIndex == e.index)
    ensures Calm(c)
  {
    InTurnOne(b.emitted, e);
    hide InTurn, StartsEmpty;
    forall i, m | Speaking(c.emitted, i, m)
      ensures (c.thinkingStarted && i == c.thinkingIndex) || (c.textStarted && i == c.textIndex)
    {
      C.OpenOne(b.emitted, e, i, m);
      hide C.OpenAt;
      assert m < |b.emitted| ==> c.emitted[m] == b.emitted[m];
      assert m < |b.emitted| ==> Speaking(b.emitted, i, m);
    }
  }

  lemma CalmUnheard(b: Builder, c: Builder)
    requires Calm(b) && Unheard(b, c)
    ensures Calm(c)
  {
  }

  // --- text and thinking ------------------------------------------------------------------------

  lemma StopThinkingCalm(b: Builder)
    requires Calm(b)
    ensures Calm(StopThinkingBlock(b))
  {
    hide Calm;
    CalmEvent(b, StopThinkingBlock(b), BlockStop(b.thinkingIndex));
  }

  lemma StopTextCalm(b: Builder)
    requires Calm(b)
    ensures Calm(StopTextBlock(b))
  {
    hide Calm;
    CalmEvent(b, StopTextBlock(b), BlockStop(b.textIndex));
  }

  lemma CloseContentCalm(b: Builder)
    requires Calm(b)
    ensures Calm(CloseContentBlocks(b)) && Silent(CloseContentBlocks(b))
  {
    hide Calm;
    StopThinkingCalm(b);
    StopTextCalm(if b.thinkingStarted then StopThinkingBlock(b) else b);
  }

  lemma ThinkingCalm(b: Builder, content: string)
    requires Calm(b) && !(b.textStarted && b.thinkingStarted)
    ensures var c := EmitThinking(b, content); Calm(c) && !c.textStarted
  {
    hide Calm;
    StopTextCalm(b);
    var c := if b.textStarted then StopTextBlock(b) else b;
    if !c.thinkingStarted {
      CalmEvent(c, StartThinkingBlock(c), BlockStart(c.next, ThinkingBlock()));
    }
    var d := EnsureThinkingBlock(b);
    CalmEvent(d, EmitThinkingDelta(d, content), BlockDelta(d.thinkingIndex, Delta(ThinkingDelta, content)));
  }

  lemma TextCalm(b: Builder, content: string)
    requires Calm(b) && !(b.textStarted && b.thinkingStarted)
    ensures var c := EmitText(b, content); Calm(c) && !c.thinkingStarted
  {
    hide Calm;
    StopThinkingCalm(b);
    var c := if b.thinkingStarted then StopThinkingBlock(b) else b;
    if !c.textStarted {
      CalmEvent(c, StartTextBlock(c), BlockStart(c.next, TextBlock()));
    }
    var d := EnsureTextBlock(b);
    CalmEvent(d, EmitTextDelta(d, content), BlockDelta(d.textIndex, Delta(TextDelta, content)));
  }

  /** A block that is started and stopped at once. */
  lemma FlashCalm(b: Builder, block: Block, delta: Delta)
    requires Calm(b) && Silent(b) && StartsEmpty(block)
    requires block.kind == ToolUse || block.kind == Text
    ensures var e1, e2, e3 := BlockStart(b.next, block), BlockDelta(b.next, delta), BlockStop(b.next);
            Calm(Emit(Emit(Emit(b.(next := b.next + 1), e1), e2), e3))
  {
    hide Calm, StartsEmpty;
    var text := block.kind == Text;
    var e1, e2, e3 := BlockStart(b.next, block), BlockDelta(b.next, delta), BlockStop(b.next);
    var c := Emit(b.(textStarted := text, textIndex := b.next), e1);
    CalmEvent(b, c, e1);
    CalmEvent(c, Emit(c, e2), e2);
    CalmEvent(Emit(c, e2), Emit(Emit(c.(textStarted := false), e2), e3), e3);
    CalmUnheardFlags(Emit(Emit(c.(textStarted := false), e2), e3),
      Emit(Emit(Emit(b.(next := b.next + 1), e1), e2), e3));
  }

  /** The index of a block that is not open does not matter. */
  lemma CalmUnheardFlags(b: Builder, c: Builder)
    requires Calm(b) && Silent(b) && Silent(c) && c.emitted == b.emitted
    ensures Calm(c)
  {
  }

  // --- tools ----------------------------------------------------------------------------------------

  /** Nothing speaks, and everything has come in turn. */
  ghost predicate Quiet(b: Builder) {
    Calm(b) && Silent(b)
  }

  lemma {:induction false} HeuristicToolsCalm(env: Env, b: Builder, tools: seq<HeuristicTool>)
    requires Calm(b)
    ensures var c := EmitHeuristicTools(env, b, tools);
            Calm(c) && (Silent(c) || (c.textStarted == b.textStarted && c.thinkingStarted == b.thinkingStarted))
  {
    hide Calm;
    if tools != [] {
      var front, tool := tools[..|tools| - 1], tools[|tools| - 1];
      HeuristicToolsCalm(env, b, front);
      var c := EmitHeuristicTools(env, b, front);
      CloseContentCalm(c);
      var input := if tool.name == "Task" then env.foreground(tool.input) else tool.input;
      FlashCalm(CloseContentBlocks(c), ToolBlock(Given(tool.id), tool.name), Delta(InputJsonDelta, input));
    }
  }

  lemma PutToolQuiet(b: Builder, t: int, state: ToolCallState)
    requires Quiet(b)
    ensures Quiet(PutTool(b, t, state))
  {
    hide Calm;
    CalmUnheard(b, PutTool(b, t, state));
  }

  lemma ToolDeltaQuiet(b: Builder, t: int, json: string)
    requires Quiet(b) && t in b.tools
    ensures Quiet(EmitToolDelta(b, t, json))
  {
    hide Calm;
    CalmEvent(b, EmitToolDelta(b, t, json), BlockDelta(b.tools[t].blockIndex, Delta(InputJsonDelta, json)));
  }

  lemma BufferTaskQuiet(b: Builder, t: int, args: string, parse: string -> TaskParse)
    requires Quiet(b)
    ensures Quiet(BufferTaskArgs(b, t, args, parse).b)
  {
    hide Calm;
    CalmUnheard(b, BufferTaskArgs(b, t, args, parse).b);
  }

  lemma EmitToolArgQuiet(env: Env, c: Conn, t: int, args: string)
    requires Quiet(c.b)
    ensures Quiet(EmitToolArg(env, c, t, args).b)
  {
    hide Quiet;
    if args != "" && t in c.b.tools {
      var name := c.b.tools[t].name;
      BufferTaskQuiet(c.b, t, args, env.parseTask);
      var r := BufferTaskArgs(c.b, t, args, env.parseTask);
      if r.json.Some? && t in r.b.tools {
        ToolDeltaQuiet(r.b, t, r.json.value);
      }
      ToolDeltaQuiet(c.b, t, args);
      var restored := env.restore(name, BufferedText(c.aliasBuffers, t) + args);
      if restored.Some? {
        ToolDeltaQuiet(c.b, t, restored.value);
      }
      hide BufferTaskArgs, EmitToolDelta;
    }
  }

  lemma RegisterQuiet(b: Builder, t: int, tc: ToolDelta)
    requires Quiet(b)
    ensures Quiet(Register(b, t, tc))
  {
    hide Calm;
    CalmUnheard(b, Register(b, t, tc));
  }

  lemma StartToolQuiet(b: Builder, t: int, tc: ToolDelta)
    requires Quiet(b)
    ensures Quiet(StartTool(b, t, tc))
  {
    hide Calm, Strip;
    var id := ResolvedId(b, t, tc);
    var block := ToolBlock(if id != "" then Given(id) else Generated(t), Strip(NameOf(b, t)));
    CalmEvent(b, StartTool(b, t, tc), BlockStart(b.next, block));
  }

  lemma StartIfNamedQuiet(env: Env, c: Conn, t: int, tc: ToolDelta)
    requires Quiet(c.b)
    ensures Quiet(StartIfNamed(env, c, t, tc).b)
  {
    hide Quiet;
    StartToolQuiet(c.b, t, tc);
    var b := StartTool(c.b, t, tc);
    hide StartTool, IsBlank, EmitToolArg;
    if t in b.tools {
      var noted := PutTool(b, t, b.tools[t].(preStartArgs := ""));
      PutToolQuiet(b, t, b.tools[t].(preStartArgs := ""));
      EmitToolArgQuiet(env, c.(b := noted), t, b.tools[t].preStartArgs);
    }
  }

  lemma ProcessToolCallQuiet(env: Env, c: Conn, tc: ToolDelta)
    requires Quiet(c.b)
    ensures Quiet(ProcessToolCall(env, c, tc).b)
  {
    hide Quiet, Register, StartIfNamed, EmitToolArg;
    var t := ResolveIndex(c.b, tc.index);
    RegisterQuiet(c.b, t, tc);
    var c1 := c.(b := Register(c.b, t, tc), calls := c.calls + [(t, tc)]);
    StartIfNamedQuiet(env, c1, t, tc);
    var c2 := StartIfNamed(env, c1, t, tc);
    HoldArgsQuiet(c2.b, t, tc.args);
    EmitToolArgQuiet(env, c2, t, tc.args);
  }

  lemma HoldArgsQuiet(b: Builder, t: int, args: string)
    requires Quiet(b)
    ensures Quiet(HoldArgs(b, t, args))
  {
    hide Calm;
    CalmUnheard(b, HoldArgs(b, t, args));
  }

  lemma {:induction false} ProcessToolCallsQuiet(env: Env, c: Conn, tcs: seq<ToolDelta>)
    requires Quiet(c.b)
    ensures Quiet(ProcessToolCalls(env, c, tcs).b)
  {
    hide Quiet, ProcessToolCall;
    if tcs != [] {
      ProcessToolCallsQuiet(env, c, tcs[..|tcs| - 1]);
      var d := ProcessToolCalls(env, c, tcs[..|tcs| - 1]);
      ProcessToolCallQuiet(env, d, tcs[|tcs| - 1]);
    }
  }

  // --- chunks --------------------------------------------------------------------------------------

  /** Text and thinking are not open together. */
  ghost predicate Turned(b: Builder) {
    Calm(b) && !(b.textStarted && b.thinkingStarted)
  }

  lemma EmitPartTurned(env: Env, c: Conn, part: ContentChunk)
    requires Turned(c.b)
    ensures Turned(EmitPart(env, c, part).b)
  {
    hide Calm, EmitThinking, EmitText, EmitHeuristicTools;
    ThinkingCalm(c.b, part.content);
    if !part.thinking {
      var (filtered, tools) := env.heuristic(c.fed + [part.content]);
      TextCalm(c.b, filtered);
      HeuristicToolsCalm(env, if filtered == "" then c.b else EmitText(c.b, filtered), tools);
    }
  }

  lemma {:induction false} EmitPartsTurned(env: Env, c: Conn, parts: seq<ContentChunk>)
    requires Turned(c.b)
    ensures Turned(EmitParts(env, c, parts).b)
  {
    hide Turned, EmitPart;
    if parts != [] {
      EmitPartsTurned(env, c, parts[..|parts| - 1]);
      EmitPartTurned(env, EmitParts(env, c, parts[..|parts| - 1]), parts[|parts| - 1]);
    }
  }

  lemma BeforeToolsTurned(env: Env, c: Conn, chunk: Chunk)
    requires Turned(c.b)
    ensures Turned(BeforeTools(env, c, chunk).b) && (chunk.tools != [] ==> Quiet(BeforeTools(env, c, chunk).b))
  {
    hide Calm, EmitParts, EmitThinking, CloseContentBlocks, FeedLoop;
    ThinkingCalm(c.b, chunk.reasoning);
    var d := NoteReasoning(env, c, chunk);
    var (parts, buffer, inside) := FeedLoop(d.thinkBuffer + chunk.content, d.inThink);
    EmitPartsTurned(env, d.(thinkBuffer := buffer, inThink := inside), parts);
    CloseContentCalm(NoteContent(env, d, chunk).b);
  }

  lemma {:induction false} ChunksTurned(env: Env, chunks: seq<Chunk>)
    ensures Turned(ProcessChunks(env, chunks).b)
  {
    if chunks == [] {
      assert forall m :: 0 <= m < |NEW_CONN.b.emitted| ==> NEW_CONN.b.emitted[m] == MessageStart;
    } else {
      var front, chunk := chunks[..|chunks| - 1], chunks[|chunks| - 1];
      ChunksTurned(env, front);
      var c := ProcessChunks(env, front);
      BeforeToolsTurned(env, c, chunk);
      if chunk.tools != [] {
        ProcessToolCallsQuiet(env, BeforeTools(env, c, chunk), chunk.tools);
      }
      hide Calm, BeforeTools;
    }
  }

  // --- the end of a response ----------------------------------------------------------------------

  lemma CompleteTurned(env: Env, c: Conn)
    requires Turned(c.b)
    ensures Turned(Complete(env, c).b)
  {
    hide Calm, EmitText, EmitThinking, EmitHeuristicTools, IsBlank;
    TextCalm(c.b, c.thinkBuffer);
    ThinkingCalm(c.b, c.thinkBuffer);
    var c1 := FlushThink(env, c);
    HeuristicToolsCalm(env, c1.b, env.heuristicFlush(c1.fed));
    TextCalm(EmitHeuristicTools(env, c1.b, env.heuristicFlush(c1.fed)), " ");
  }

  lemma ToolDeltaTurned(b: Builder, t: int, json: string)
    requires Turned(b) && t in b.tools
    ensures Turned(EmitToolDelta(b, t, json))
  {
    hide Calm;
    CalmEvent(b, EmitToolDelta(b, t, json), BlockDelta(b.tools[t].blockIndex, Delta(InputJsonDelta, json)));
  }

  lemma {:induction false} FlushAliasesTurned(env: Env, c: Conn, keys: seq<int>)
    requires Turned(c.b)
    ensures Turned(FlushAliases(env, c, keys).b)
  {
    hide Turned, EmitToolDelta;
    if keys != [] {
      FlushAliasesTurned(env, c, keys[..|keys| - 1]);
      var d, t := FlushAliases(env, c, keys[..|keys| - 1]), keys[|keys| - 1];
      if NeedsAliasFlush(env, d, t) {
        var restored := env.restore(d.b.tools[t].name, BufferedText(d.aliasBuffers, t));
        ToolDeltaTurned(d.b, t, if restored.Some? then restored.value else BufferedText(d.aliasBuffers, t));
      }
    }
  }

  lemma {:induction false} FlushTasksTurned(b: Builder, keys: seq<int>, parse: string -> TaskParse)
    requires Turned(b)
    ensures Turned(FlushTasks(b, keys, parse))
  {
    hide Turned, EmitToolDelta;
    if keys != [] {
      FlushTasksTurned(b, keys[..|keys| - 1], parse);
      var c, t := FlushTasks(b, keys[..|keys| - 1], parse), keys[|keys| - 1];
      if NeedsTaskFlush(c, t) {
        var state := c.tools[t].(taskArgBuffer := "", taskArgsEmitted := true);
        PutToolTurned(c, t, state);
        ToolDeltaTurned(PutTool(c, t, state), t, TaskFlushJson(c.tools[t].taskArgBuffer, parse));
      }
    }
  }

  lemma PutToolTurned(b: Builder, t: int, state: ToolCallState)
    requires Turned(b)
    ensures Turned(PutTool(b, t, state))
  {
    hide Calm;
    CalmUnheard(b, PutTool(b, t, state));
  }

  lemma {:induction false} StopToolsQuiet(b: Builder, keys: seq<int>)
    requires Quiet(b)
    ensures Quiet(StopTools(b, keys))
  {
    hide Calm;
    if keys != [] {
      StopToolsQuiet(b, keys[..|keys| - 1]);
      var c, t := StopTools(b, keys[..|keys| - 1]), keys[|keys| - 1];
      if t in c.tools && c.tools[t].started {
        CalmEvent(c, Emit(c, BlockStop(c.tools[t].blockIndex)), BlockStop(c.tools[t].blockIndex));
      }
    }
  }

  lemma CloseAllQuiet(b: Builder)
    requires Calm(b)
    ensures Quiet(CloseAllBlocks(b))
  {
    CloseContentCalm(b);
    hide Calm, CloseContentBlocks;
    StopToolsQuiet(CloseContentBlocks(b), CloseContentBlocks(b).order);
  }

  lemma MessageEndCalm(b: Builder, reason: string)
    requires Calm(b)
    ensures Calm(Emit(Emit(b, MessageDelta(reason)), MessageStop))
  {
    hide Calm;
    CalmEvent(b, Emit(b, MessageDelta(reason)), MessageDelta(reason));
    CalmEvent(Emit(b, MessageDelta(reason)), Emit(Emit(b, MessageDelta(reason)), MessageStop), MessageStop);
  }

  lemma FailCalm(b: Builder, message: string)
    requires Calm(b)
    ensures Calm(FailResponse(b, message))
  {
    CloseAllQuiet(b);
    hide Calm, CloseAllBlocks, HasEmittedToolBlock;
    var c := CloseAllBlocks(b);
    FlashCalm(c, TextBlock(), Delta(TextDelta, message));
    CalmEvent(c, Emit(c, ErrorEvent(message)), ErrorEvent(message));
    MessageEndCalm(if HasEmittedToolBlock(c) then Emit(c, ErrorEvent(message)) else EmitError(c, message), "end_turn");
  }

  lemma FinishCalm(env: Env, c: Conn)
    requires Turned(c.b)
    ensures Calm(FinishResponse(env, c))
  {
    CompleteTurned(env, c);
    var d := Complete(env, c);
    FlushAliasesTurned(env, d, d.aliasBuffers.keys);
    var e := FlushAliases(env, d, d.aliasBuffers.keys);
    FlushTasksTurned(e.b, e.b.order, env.parseTask);
    CloseAllQuiet(Drain(env, c).b);
    hide Calm, CloseAllBlocks, Drain;
    MessageEndCalm(CloseAllBlocks(Drain(env, c).b), StopReason(c.finishReason));
  }

  /** Every response, however it ends: a block is started empty, and only when the
      text or thinking before it has been closed, so that of these at most one is
      open at any time and none while a tool is announced. */
  lemma BlocksComeInTurn(env: Env, chunks: seq<Chunk>, broken: bool, message: string)
    ensures InTurn(StreamResponse(env, chunks, broken, message).emitted)
  {
    ChunksTurned(env, chunks);
    hide InTurn, ProcessChunks;
    var c := ProcessChunks(env, chunks);
    FailCalm(c.b, message);
    FinishCalm(env, c);
    hide FailResponse, FinishResponse;
  }

  /** The stops of the started tools among `keys`, in that order. */
  function ToolStops(b: Builder, keys: seq<int>): seq<Event> {
    if keys == [] then []
    else
      (if Started(b, keys[0]) then [BlockStop(b.tools[keys[0]].blockIndex)] else []) + ToolStops(b, keys[1..])
  }

  lemma {:induction false} ToolStopsSnoc(b: Builder, keys: seq<int>, t: int)
    ensures ToolStops(b, keys + [t]) ==
              ToolStops(b, keys) + if Started(b, t) then [BlockStop(b.tools[t].blockIndex)] else []
  {
    if keys == [] {
      assert [] + [t] == [t] && [t][1..] == [];
    } else {
      assert (keys + [t])[1..] == keys[1..] + [t];
      ToolStopsSnoc(b, keys[1..], t);
    }
  }

  lemma {:induction false} StopToolsSays(b: Builder, keys: seq<int>)
    ensures StopTools(b, keys) == b.(emitted := b.emitted + ToolStops(b, keys))
  {
    if keys != [] {
      var front, t := keys[..|keys| - 1], keys[|keys| - 1];
      assert keys == front + [t];
      StopToolsSays(b, front);
      ToolStopsSnoc(b, front, t);
    }
  }

  /** Closing stops thinking, text and then the tools in the order they came in. */
  lemma ClosingSays(b: Builder)
    ensures CloseAllBlocks(b).emitted ==
              b.emitted + (if b.thinkingStarted then [BlockStop(b.thinkingIndex)] else [])
              + (if b.textStarted then [BlockStop(b.textIndex)] else []) + ToolStops(b, b.order)
  {
    var c := CloseContentBlocks(b);
    StopToolsSays(c, c.order);
    SameStops(b, c, b.order);
  }

  lemma {:induction false} SameStops(b: Builder, c: Builder, keys: seq<int>)
    requires c.tools == b.tools
    ensures ToolStops(c, keys) == ToolStops(b, keys)
  {
    if keys != [] {
      SameStops(b, c, keys[1..]);
    }
  }
}
