/** The builder of Anthropic content-block events
    (proxy/core/anthropic/sse.py: ContentBlockManager, ToolCallState, SSEBuilder). */
module SseBuilding {
  import opened Common
  import opened StreamContract

  /** What parsing the buffered arguments of a Task tool can yield; an object
      comes back re-encoded, with `run_in_background` forced to false. */
  datatype TaskParse = NotJson | NotObject | Object(encoded: string)

  datatype ToolCallState = ToolCallState(
    blockIndex: int,
    toolId: string,
    name: string,
    contents: seq<string>,
    started: bool,
    taskArgBuffer: string,
    taskArgsEmitted: bool,
    preStartArgs: string)

  const NEW_TOOL: ToolCallState := ToolCallState(-1, "", "", [], false, "", false, "")

  /** The value of a builder.  `emitted` is every event it has formatted, in
      order; `order` is the insertion order of `tools`. */
  datatype Builder = Builder(
    emitted: seq<Event>,
    next: nat,
    thinkingIndex: int,
    textIndex: int,
    thinkingStarted: bool,
    textStarted: bool,
    order: seq<int>,
    tools: map<int, ToolCallState>,
    accumulatedText: string,
    accumulatedReasoning: string)

  const NEW_BUILDER: Builder := Builder([], 0, -1, -1, false, false, [], map[], "", "")

  function Emit(b: Builder, e: Event): Builder {
    b.(emitted := b.emitted + [e])
  }

  function TextBlock(): Block { Block(Text, "", NoId, "", "") }

  function ThinkingBlock(): Block { Block(Thinking, "", NoId, "", "") }

  function ToolBlock(id: ToolId, name: string): Block { Block(ToolUse, "", id, name, "{}") }

  // --- text and thinking blocks ------------------------------------------------------

  function StartThinkingBlock(b: Builder): Builder {
    Emit(b.(thinkingIndex := b.next, next := b.next + 1, thinkingStarted := true), BlockStart(b.next, ThinkingBlock()))
  }

  function EmitThinkingDelta(b: Builder, content: string): Builder {
    Emit(b.(accumulatedReasoning := b.accumulatedReasoning + content),
         BlockDelta(b.thinkingIndex, Delta(ThinkingDelta, content)))
  }

  function StopThinkingBlock(b: Builder): Builder {
    Emit(b.(thinkingStarted := false), BlockStop(b.thinkingIndex))
  }

  function StartTextBlock(b: Builder): Builder {
    Emit(b.(textIndex := b.next, next := b.next + 1, textStarted := true), BlockStart(b.next, TextBlock()))
  }

  function EmitTextDelta(b: Builder, content: string): Builder {
    Emit(b.(accumulatedText := b.accumulatedText + content), BlockDelta(b.textIndex, Delta(TextDelta, content)))
  }

  function StopTextBlock(b: Builder): Builder {
    Emit(b.(textStarted := false), BlockStop(b.textIndex))
  }

  function EnsureThinkingBlock(b: Builder): Builder {
    var c := if b.textStarted then StopTextBlock(b) else b;
    if c.thinkingStarted then c else StartThinkingBlock(c)
  }

  function EnsureTextBlock(b: Builder): Builder {
    var c := if b.thinkingStarted then StopThinkingBlock(b) else b;
    if c.textStarted then c else StartTextBlock(c)
  }

  function CloseContentBlocks(b: Builder): Builder {
    var c := if b.thinkingStarted then StopThinkingBlock(b) else b;
    if c.textStarted then StopTextBlock(c) else c
  }

  // --- tool blocks -----------------------------------------------------------------------

  function PutTool(b: Builder, t: int, state: ToolCallState): Builder {
    b.(tools := b.tools[t := state], order := if t in b.tools then b.order else b.order + [t])
  }

  function EnsureToolState(b: Builder, t: int): Builder {
    if t in b.tools then b else PutTool(b, t, NEW_TOOL)
  }

  function SetStreamToolId(b: Builder, t: int, id: string): Builder {
    if id == "" then b
    else
      var c := EnsureToolState(b, t);
      PutTool(c, t, c.tools[t].(toolId := id))
  }

  predicate StartsWith(s: string, prefix: string) {
    |prefix| <= |s| && s[..|prefix|] == prefix
  }

  function MergeName(prev: string, name: string): string {
    if prev == "" || StartsWith(name, prev) then name
    else if StartsWith(prev, name) then prev
    else prev + name
  }

  function RegisterToolName(b: Builder, t: int, name: string): Builder {
    if t !in b.tools then PutTool(b, t, NEW_TOOL.(name := name))
    else PutTool(b, t, b.tools[t].(name := MergeName(b.tools[t].name, name)))
  }

  function StartToolBlock(b: Builder, t: int, id: ToolId, toolId: string, name: string): Builder {
    var state :=
      if t in b.tools then b.tools[t].(blockIndex := b.next, toolId := toolId, started := true)
      else NEW_TOOL.(blockIndex := b.next, toolId := toolId, name := name, started := true);
    Emit(PutTool(b, t, state).(next := b.next + 1), BlockStart(b.next, ToolBlock(id, name)))
  }

  function EmitToolDelta(b: Builder, t: int, json: string): Builder
    requires t in b.tools
  {
    Emit(PutTool(b, t, b.tools[t].(contents := b.tools[t].contents + [json])),
         BlockDelta(b.tools[t].blockIndex, Delta(InputJsonDelta, json)))
  }

  predicate HasEmittedToolBlock(b: Builder) {
    exists t :: t in b.tools && b.tools[t].started
  }

  /** `buffer_task_args`: the JSON to send, if the buffer has become complete.
      `failed` is the exception a complete value that is no object raises. */
  datatype Buffered = Buffered(b: Builder, json: Option<string>, failed: bool)

  function BufferTaskArgs(b: Builder, t: int, args: string, parse: string -> TaskParse): Buffered {
    if t !in b.tools || b.tools[t].taskArgsEmitted then Buffered(b, None, false)
    else
      var whole := b.tools[t].taskArgBuffer + args;
      match parse(whole)
      case NotJson => Buffered(PutTool(b, t, b.tools[t].(taskArgBuffer := whole)), None, false)
      case NotObject => Buffered(PutTool(b, t, b.tools[t].(taskArgBuffer := whole)), None, true)
      case Object(encoded) =>
        Buffered(PutTool(b, t, b.tools[t].(taskArgBuffer := "", taskArgsEmitted := true)), Some(encoded), false)
  }

  predicate NeedsTaskFlush(b: Builder, t: int) {
    t in b.tools && b.tools[t].taskArgBuffer != "" && !b.tools[t].taskArgsEmitted
  }

  /** What the flush sends for a buffer.  A complete value that is no object
      would raise here; such a buffer never survives to the flush. */
  function TaskFlushJson(buffer: string, parse: string -> TaskParse): string {
    var parsed := parse(buffer);
    if parsed.Object? then parsed.encoded else "{}"
  }

  function FlushTask(b: Builder, t: int, parse: string -> TaskParse): Builder
    requires t in b.tools
  {
    var json := TaskFlushJson(b.tools[t].taskArgBuffer, parse);
    EmitToolDelta(PutTool(b, t, b.tools[t].(taskArgBuffer := "", taskArgsEmitted := true)), t, json)
  }

  /** Flush the Task buffers among `keys`, in that order. */
  function FlushTasks(b: Builder, keys: seq<int>, parse: string -> TaskParse): Builder {
    if keys == [] then b
    else
      var c := FlushTasks(b, keys[..|keys| - 1], parse);
      var t := keys[|keys| - 1];
      if NeedsTaskFlush(c, t) then FlushTask(c, t, parse) else c
  }

  function StopTools(b: Builder, keys: seq<int>): Builder {
    if keys == [] then b
    else
      var c := StopTools(b, keys[..|keys| - 1]);
      var t := keys[|keys| - 1];
      if t in c.tools && c.tools[t].started then Emit(c, BlockStop(c.tools[t].blockIndex)) else c
  }

  function CloseAllBlocks(b: Builder): Builder {
    var c := CloseContentBlocks(b);
    StopTools(c, c.order)
  }

  function EmitError(b: Builder, message: string): Builder {
    var i := b.next;
    Emit(Emit(Emit(b.(next := i + 1),
                   BlockStart(i, TextBlock())),
              BlockDelta(i, Delta(TextDelta, message))),
         BlockStop(i))
  }

  // --- the object -----------------------------------------------------------------------------

  class SseBuilder {
    var emitted: seq<Event>
    var nextIndex: nat
    var thinkingIndex: int
    var textIndex: int
    var thinkingStarted: bool
    var textStarted: bool
    var toolOrder: seq<int>
    var toolStates: map<int, ToolCallState>
    var accumulatedText: string
    var accumulatedReasoning: string

    function Abs(): Builder
      reads this
    {
      Builder(emitted, nextIndex, thinkingIndex, textIndex, thinkingStarted, textStarted,
              toolOrder, toolStates, accumulatedText, accumulatedReasoning)
    }

    constructor ()
      ensures Abs() == NEW_BUILDER
    {
      emitted, nextIndex, thinkingIndex, textIndex := [], 0, -1, -1;
      thinkingStarted, textStarted, toolOrder, toolStates := false, false, [], map[];
      accumulatedText, accumulatedReasoning := "", "";
    }

    method FormatEvent(e: Event)
      modifies this
      ensures Abs() == Emit(old(Abs()), e)
    {
      emitted := emitted + [e];
    }

    method AllocateIndex() returns (index: nat)
      modifies this
      ensures index == old(nextIndex)
      ensures Abs() == old(Abs()).(next := index + 1)
    {
      index := nextIndex;
      nextIndex := nextIndex + 1;
    }

    method DoStartThinkingBlock()
      modifies this
      ensures Abs() == StartThinkingBlock(old(Abs()))
    {
      thinkingIndex := AllocateIndex();
      thinkingStarted := true;
      FormatEvent(BlockStart(thinkingIndex, ThinkingBlock()));
    }

    method DoEmitThinkingDelta(content: string)
      modifies this
      ensures Abs() == EmitThinkingDelta(old(Abs()), content)
    {
      accumulatedReasoning := accumulatedReasoning + content;
      FormatEvent(BlockDelta(thinkingIndex, Delta(ThinkingDelta, content)));
    }

    method DoStopThinkingBlock()
      modifies this
      ensures Abs() == StopThinkingBlock(old(Abs()))
    {
      thinkingStarted := false;
      FormatEvent(BlockStop(thinkingIndex));
    }

    method DoStartTextBlock()
      modifies this
      ensures Abs() == StartTextBlock(old(Abs()))
    {
      textIndex := AllocateIndex();
      textStarted := true;
      FormatEvent(BlockStart(textIndex, TextBlock()));
    }

    method DoEmitTextDelta(content: string)
      modifies this
      ensures Abs() == EmitTextDelta(old(Abs()), content)
    {
      accumulatedText := accumulatedText + content;
      FormatEvent(BlockDelta(textIndex, Delta(TextDelta, content)));
    }

    method DoStopTextBlock()
      modifies this
      ensures Abs() == StopTextBlock(old(Abs()))
    {
      textStarted := false;
      FormatEvent(BlockStop(textIndex));
    }

    method DoEnsureThinkingBlock()
      modifies this
      ensures Abs() == EnsureThinkingBlock(old(Abs()))
    {
      if textStarted {
        DoStopTextBlock();
      }
      if !thinkingStarted {
        DoStartThinkingBlock();
      }
    }

    method DoEnsureTextBlock()
      modifies this
      ensures Abs() == EnsureTextBlock(old(Abs()))
    {
      if thinkingStarted {
        DoStopThinkingBlock();
      }
      if !textStarted {
        DoStartTextBlock();
      }
    }

    method DoCloseContentBlocks()
      modifies this
      ensures Abs() == CloseContentBlocks(old(Abs()))
    {
      if thinkingStarted {
        DoStopThinkingBlock();
      }
      if textStarted {
        DoStopTextBlock();
      }
    }

    method StoreTool(t: int, state: ToolCallState)
      modifies this
      ensures Abs() == PutTool(old(Abs()), t, state)
    {
      if t !in toolStates {
        toolOrder := toolOrder + [t];
      }
      toolStates := toolStates[t := state];
    }

    method DoEnsureToolState(t: int)
      modifies this
      ensures Abs() == EnsureToolState(old(Abs()), t)
    {
      if t !in toolStates {
        StoreTool(t, NEW_TOOL);
      }
    }

    method DoSetStreamToolId(t: int, id: string)
      modifies this
      ensures Abs() == SetStreamToolId(old(Abs()), t, id)
    {
      if id == "" {
        return;
      }
      DoEnsureToolState(t);
      StoreTool(t, toolStates[t].(toolId := id));
    }

    method DoRegisterToolName(t: int, name: string)
      modifies this
      ensures Abs() == RegisterToolName(old(Abs()), t, name)
    {
      if t !in toolStates {
        StoreTool(t, NEW_TOOL.(name := name));
        return;
      }
      var prev := toolStates[t].name;
      if prev == "" || StartsWith(name, prev) {
        StoreTool(t, toolStates[t].(name := name));
      } else if !StartsWith(prev, name) {
        StoreTool(t, toolStates[t].(name := prev + name));
      }
    }

    method DoStartToolBlock(t: int, id: ToolId, toolId: string, name: string)
      modifies this
      ensures Abs() == StartToolBlock(old(Abs()), t, id, toolId, name)
    {
      var block := AllocateIndex();
      if t in toolStates {
        StoreTool(t, toolStates[t].(blockIndex := block, toolId := toolId, started := true));
      } else {
        StoreTool(t, NEW_TOOL.(blockIndex := block, toolId := toolId, name := name, started := true));
      }
      FormatEvent(BlockStart(block, ToolBlock(id, name)));
    }

    method DoEmitToolDelta(t: int, json: string)
      requires t in toolStates
      modifies this
      ensures Abs() == EmitToolDelta(old(Abs()), t, json)
    {
      var state := toolStates[t];
      StoreTool(t, state.(contents := state.contents + [json]));
      FormatEvent(BlockDelta(state.blockIndex, Delta(InputJsonDelta, json)));
    }

    method DoBufferTaskArgs(t: int, args: string, parse: string -> TaskParse)
        returns (json: Option<string>, failed: bool)
      modifies this
      ensures Buffered(Abs(), json, failed) == BufferTaskArgs(old(Abs()), t, args, parse)
    {
      if t !in toolStates || toolStates[t].taskArgsEmitted {
        return None, false;
      }
      var whole := toolStates[t].taskArgBuffer + args;
      StoreTool(t, toolStates[t].(taskArgBuffer := whole));
      var parsed := parse(whole);
      if parsed.Object? {
        StoreTool(t, toolStates[t].(taskArgBuffer := "", taskArgsEmitted := true));
        return Some(parsed.encoded), false;
      }
      return None, parsed.NotObject?;
    }

    method DoFlushTaskArgBuffers(parse: string -> TaskParse)
      modifies this
      ensures Abs() == FlushTasks(old(Abs()), old(toolOrder), parse)
    {
      var n := 0;
      var keys := toolOrder;
      while n < |keys|
        invariant 0 <= n <= |keys|
        invariant Abs() == FlushTasks(old(Abs()), keys[..n], parse)
      {
        var t := keys[n];
        assert keys[..n + 1][..n] == keys[..n];
        if t in toolStates && toolStates[t].taskArgBuffer != "" && !toolStates[t].taskArgsEmitted {
          var json := TaskFlushJson(toolStates[t].taskArgBuffer, parse);
          StoreTool(t, toolStates[t].(taskArgBuffer := "", taskArgsEmitted := true));
          DoEmitToolDelta(t, json);
        }
        n := n + 1;
      }
      assert keys[..n] == keys;
    }

    method DoCloseAllBlocks()
      modifies this
      ensures Abs() == CloseAllBlocks(old(Abs()))
    {
      DoCloseContentBlocks();
      ghost var closed := Abs();
      var n := 0;
      while n < |toolOrder|
        invariant 0 <= n <= |toolOrder| && toolOrder == closed.order
        invariant Abs() == StopTools(closed, toolOrder[..n])
      {
        var t := toolOrder[n];
        assert toolOrder[..n + 1][..n] == toolOrder[..n];
        if t in toolStates && toolStates[t].started {
          FormatEvent(BlockStop(toolStates[t].blockIndex));
        }
        n := n + 1;
      }
      assert toolOrder[..n] == toolOrder;
    }

    method DoEmitError(message: string)
      modifies this
      ensures Abs() == EmitError(old(Abs()), message)
    {
      var index := AllocateIndex();
      FormatEvent(BlockStart(index, TextBlock()));
      FormatEvent(BlockDelta(index, Delta(TextDelta, message)));
      FormatEvent(BlockStop(index));
    }
  }
}
