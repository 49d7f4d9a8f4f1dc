/** How the tools of a response are announced: every streamed tool once, at its own
    block, under the name and id that its deltas have made up by then, and every
    tool the heuristic parser finds with what it found. */
module TransportBlocks {
  import opened Common
  import opened StreamContract
  import opened SseBuilding
  import opened ThinkTags
  import opened OpenAiTransport
  import opened TransportContract
  import opened TransportTools

  // --- what the deltas of a tool make up ------------------------------------------------------

  /** A resent or continued name replaces what is there, a repeated beginning adds
      nothing, and anything else is put behind. */
  function MergedName(deltas: seq<ToolDelta>): string {
    if deltas == [] then ""
    else
      var before, last := MergedName(deltas[..|deltas| - 1]), deltas[|deltas| - 1];
      if last.name.None? then before
      else if before <= last.name.value then last.name.value
      else if last.name.value <= before then before
      else before + last.name.value
  }

  /** The last id that is not empty. */
  function LastId(deltas: seq<ToolDelta>): string {
    if deltas == [] then ""
    else
      var last := deltas[|deltas| - 1];
      if last.id.Some? && last.id.value != "" then last.id.value else LastId(deltas[..|deltas| - 1])
  }

  /** The block that tool `t` is announced with, once its name is not blank. */
  function Announcement(t: int, deltas: seq<ToolDelta>): Option<Block> {
    if deltas == [] then None
    else
      var before := Announcement(t, deltas[..|deltas| - 1]);
      if before.Some? then before
      else if IsBlank(MergedName(deltas)) then None
      else
        var id := LastId(deltas);
        Some(Block(ToolUse, "", if id != "" then Given(id) else Generated(t), Strip(MergedName(deltas)), "{}"))
  }

  function StartAt(i: int, e: Event): seq<Block> {
    if e.BlockStart? && e.index == i then [e.block] else []
  }

  /** The blocks started at index `i`, in order. */
  function StartsAt(es: seq<Event>, i: int): seq<Block> {
    Collect(e => StartAt(i, e), es)
  }

  // --- starts already sent --------------------------------------------------------------------

  lemma {:induction false} NoStartsAt(es: seq<Event>, i: int)
    requires i !in StartIndices(es)
    ensures StartsAt(es, i) == []
  {
    if es != [] {
      var front, e := es[..|es| - 1], es[|es| - 1];
      assert StartIndices(es) == StartIndices(front) + StartOf(e);
      if e.BlockStart? {
        assert e.index in StartIndices(es) by {
          assert StartIndices(es)[|StartIndices(front)|] == e.index;
        }
      }
      assert forall k | k in StartIndices(front) :: k in StartIndices(es);
      NoStartsAt(front, i);
    }
  }

  /** Indices are used once, so later events do not start an old block again. */
  lemma KeptStarts(a: seq<Event>, b: seq<Event>, n: nat, m: nat, i: int)
    requires a <= b && StartIndices(a) == CountUp(n) && StartIndices(b) == CountUp(m) && 0 <= i < n
    ensures StartsAt(b, i) == StartsAt(a, i)
  {
    var more := b[|a|..];
    assert b == a + more;
    CollectAppend(StartOf, a, more);
    CollectAppend((e: Event) => StartAt(i, e), a, more);
    forall k | 0 <= k < |StartIndices(more)|
      ensures StartIndices(more)[k] == n + k
    {
      assert StartIndices(b)[n + k] == StartIndices(more)[k] && CountUp(m)[n + k] == n + k;
    }
    NoStartsAt(more, i);
  }

  lemma FirstStart(es: seq<Event>, n: nat, block: Block)
    requires StartIndices(es) == CountUp(n)
    ensures StartsAt(es + [BlockStart(n, block)], n) == [block]
    ensures StartIndices(es + [BlockStart(n, block)]) == CountUp(n + 1)
  {
    assert n !in CountUp(n);
    NoStartsAt(es, n);
    CollectOne((e: Event) => StartAt(n, e), es, BlockStart(n, block));
    CollectOne(StartOf, es, BlockStart(n, block));
    assert CountUp(n) + [n as int] == CountUp(n + 1);
  }

  // --- what the builder knows of a tool -----------------------------------------------------------

  /** Name, id and block of a tool. */
  datatype Face = Face(name: string, id: string, started: bool, index: int)

  function FaceOf(b: Builder, t: int): Face {
    var st := if t in b.tools then b.tools[t] else NEW_TOOL;
    Face(st.name, st.toolId, st.started, st.blockIndex)
  }

  /** More has been sent, and no tool has changed its face. */
  ghost predicate Quiet(b: Builder, c: Builder) {
    b.emitted <= c.emitted && forall t :: FaceOf(c, t) == FaceOf(b, t)
  }

  lemma ToolDeltaQuiet(b: Builder, t: int, json: string)
    requires t in b.tools
    ensures Quiet(b, EmitToolDelta(b, t, json))
  {
  }

  lemma NotesQuiet(b: Builder, t: int, state: ToolCallState)
    requires var st := if t in b.tools then b.tools[t] else NEW_TOOL;
             state.name == st.name && state.toolId == st.toolId && state.started == st.started
             && state.blockIndex == st.blockIndex
    ensures Quiet(b, PutTool(b, t, state))
  {
  }

  lemma EmitToolArgQuiet(env: Env, c: Conn, t: int, args: string)
    ensures Quiet(c.b, EmitToolArg(env, c, t, args).b)
  {
    hide FaceOf, PutTool, EmitToolDelta;
    if args != "" && t in c.b.tools {
      var name := c.b.tools[t].name;
      if name == "Task" {
        TaskArgQuiet(c.b, t, args, env.parseTask);
        var r := BufferTaskArgs(c.b, t, args, env.parseTask);
        if !r.failed && r.json.Some? && t in r.b.tools {
          ToolDeltaQuiet(r.b, t, r.json.value);
        }
      } else if env.aliased(name) {
        var restored := env.restore(name, BufferedText(c.aliasBuffers, t) + args);
        if restored.Some? {
          ToolDeltaQuiet(c.b, t, restored.value);
        }
      } else {
        ToolDeltaQuiet(c.b, t, args);
      }
    }
  }

  lemma TaskArgQuiet(b: Builder, t: int, args: string, parse: string -> TaskParse)
    requires t in b.tools
    ensures Quiet(b, BufferTaskArgs(b, t, args, parse).b)
  {
  }

  lemma HoldArgsQuiet(b: Builder, t: int, args: string)
    ensures Quiet(b, HoldArgs(b, t, args))
  {
  }

  lemma IdFaces(b: Builder, t: int, id: string)
    ensures var c := SetStreamToolId(b, t, id); var f := FaceOf(b, t);
            && c.emitted == b.emitted && c.next == b.next && (forall u | u != t :: FaceOf(c, u) == FaceOf(b, u))
            && FaceOf(c, t) == f.(id := if id != "" then id else f.id)
  {
  }

  lemma NameFaces(b: Builder, t: int, name: string)
    ensures var c := RegisterToolName(b, t, name); var f := FaceOf(b, t);
            && c.emitted == b.emitted && c.next == b.next && (forall u | u != t :: FaceOf(c, u) == FaceOf(b, u))
            && FaceOf(c, t) == f.(name := MergeName(f.name, name))
  {
    hide MergeName;
    MergeFirst();
  }

  lemma RegisterFaces(b: Builder, t: int, tc: ToolDelta)
    ensures var c := Register(b, t, tc); var f := FaceOf(b, t);
            && c.emitted == b.emitted && c.next == b.next
            && FaceOf(c, t) == Face(if tc.name.Some? then MergeName(f.name, tc.name.value) else f.name,
                                    if tc.id.Some? && tc.id.value != "" then tc.id.value else f.id, f.started, f.index)
            && (forall u | u != t :: FaceOf(c, u) == FaceOf(b, u))
  {
    hide MergeName, SetStreamToolId, RegisterToolName, FaceOf;
    var withId := if tc.id.Some? then SetStreamToolId(b, t, tc.id.value) else b;
    if tc.id.Some? {
      IdFaces(b, t, tc.id.value);
    }
    if tc.name.Some? {
      NameFaces(withId, t, tc.name.value);
    }
  }

  /** Starting a block sends one start event at the next index. */
  lemma StartToolFaces(b: Builder, t: int, tc: ToolDelta)
    ensures var c := StartTool(b, t, tc); var f := FaceOf(b, t);
            var id := if f.id != "" then f.id else if tc.id.Some? then tc.id.value else "";
            && c.next == b.next + 1
            && c.emitted == b.emitted + [BlockStart(b.next,
                 Block(ToolUse, "", if id != "" then Given(id) else Generated(t),
                                                                  Strip(f.name), "{}"))]
            && (t in b.tools ==> FaceOf(c, t) == Face(f.name, id, true, b.next))
            && (forall u | u != t :: FaceOf(c, u) == FaceOf(b, u))
  {
    hide Strip;
  }

  lemma NamedIsKnown(b: Builder, t: int)
    requires FaceOf(b, t).name != ""
    ensures t in b.tools
  {
  }

  // --- one tool delta -----------------------------------------------------------------------------

  /** The builder presents tool `t` as its deltas have it. */
  ghost predicate Presented(b: Builder, t: int, own: seq<ToolDelta>) {
    var f := FaceOf(b, t);
    && f.name == MergedName(own) && f.id == LastId(own)
    && (f.started <==> Announcement(t, own).Some?)
    && (f.started ==> 0 <= f.index < b.next && StartsAt(b.emitted, f.index) == [Announcement(t, own).value])
  }

  /** What was presented is not affected by what is sent later. */
  lemma PresentedStays(b: Builder, c: Builder, t: int, own: seq<ToolDelta>)
    requires Presented(b, t, own) && FaceOf(c, t) == FaceOf(b, t) && b.emitted <= c.emitted
    requires StartIndices(b.emitted) == CountUp(b.next) && StartIndices(c.emitted) == CountUp(c.next)
    ensures Presented(c, t, own)
  {
    hide Announcement, MergedName, LastId, FaceOf, StartsAt;
    if FaceOf(b, t).started {
      KeptStarts(b.emitted, c.emitted, b.next, c.next, FaceOf(b, t).index);
      MoreStarts(b.emitted, c.emitted, b.next, c.next);
    }
  }

  lemma MoreStarts(a: seq<Event>, b: seq<Event>, n: nat, m: nat)
    requires a <= b && StartIndices(a) == CountUp(n) && StartIndices(b) == CountUp(m)
    ensures n <= m
  {
    assert b == a + b[|a|..];
    CollectAppend(StartOf, a, b[|a|..]);
  }

  lemma OwnSnoc(t: int, own: seq<ToolDelta>, tc: ToolDelta)
    ensures var more := own + [tc];
            && MergedName(more) == (if tc.name.None? then MergedName(own)
                                    else if MergedName(own) <= tc.name.value then tc.name.value
                                    else if tc.name.value <= MergedName(own) then MergedName(own)
                                    else MergedName(own) + tc.name.value)
            && LastId(more) == (if tc.id.Some? && tc.id.value != "" then tc.id.value else LastId(own))
            && Announcement(t, more) ==
                 (if Announcement(t, own).Some? then Announcement(t, own)
                  else if IsBlank(MergedName(more)) then None
                  else Some(Block(ToolUse, "", if LastId(more) != "" then Given(LastId(more)) else Generated(t),
                                  Strip(MergedName(more)), "{}")))
  {
    assert (own + [tc])[..|own|] == own;
    hide IsBlank, Strip;
  }

  lemma MergesAlike(prev: string, name: string)
    ensures MergeName(prev, name) == if prev <= name then name else if name <= prev then prev else prev + name
  {
  }

  lemma StartIfNamedEmits(env: Env, c: Conn, t: int, tc: ToolDelta)
    ensures var d := StartIfNamed(env, c, t, tc).b;
            var starts := !Started(c.b, t) && !IsBlank(NameOf(c.b, t));
            && (!starts ==> d == c.b)
            && (starts ==> Quiet(StartTool(c.b, t, tc), d))
  {
    hide StartTool, IsBlank, PutTool, EmitToolArg, FaceOf;
    if !Started(c.b, t) && !IsBlank(NameOf(c.b, t)) {
      var b := StartTool(c.b, t, tc);
      if t in b.tools && b.tools[t].preStartArgs != "" {
        var cleared := PutTool(b, t, b.tools[t].(preStartArgs := ""));
        NotesQuiet(b, t, b.tools[t].(preStartArgs := ""));
        EmitToolArgQuiet(env, c.(b := cleared), t, b.tools[t].preStartArgs);
      }
    }
  }

  /** The builder with the start of tool `t`, if the delta brings it about. */
  function Starting(b: Builder, t: int, tc: ToolDelta): Builder {
    var c := Register(b, t, tc);
    if !Started(c, t) && !IsBlank(NameOf(c, t)) then StartTool(c, t, tc) else c
  }

  lemma CallEmits(env: Env, c: Conn, tc: ToolDelta)
    ensures Quiet(Starting(c.b, ResolveIndex(c.b, tc.index), tc), ProcessToolCall(env, c, tc).b)
  {
    hide Register, StartTool, StartIfNamed, EmitToolArg, HoldArgs, IsBlank, FaceOf, Started, NameOf;
    var t := ResolveIndex(c.b, tc.index);
    var c1 := c.(b := Register(c.b, t, tc), calls := c.calls + [(t, tc)]);
    StartIfNamedEmits(env, c1, t, tc);
    var c2 := StartIfNamed(env, c1, t, tc);
    if !c2.failed && tc.args != "" {
      if Started(c2.b, t) {
        EmitToolArgQuiet(env, c2, t, tc.args);
      } else {
        HoldArgsQuiet(c2.b, t, tc.args);
      }
    }
  }

  lemma FaceStarted(b: Builder, t: int)
    ensures Started(b, t) == FaceOf(b, t).started && NameOf(b, t) == FaceOf(b, t).name
  {
  }

  lemma BlankIsUnnamed()
    ensures IsBlank("")
  {
  }

  /** The delta registers with its own tool, and starts it when it has a name. */
  lemma StartingPresents(b: Builder, t: int, tc: ToolDelta, own: seq<ToolDelta>)
    requires StartIndices(b.emitted) == CountUp(b.next) && Presented(b, t, own)
    ensures var s := Starting(b, t, tc); Presented(s, t, own + [tc]) && StartIndices(s.emitted) == CountUp(s.next)
    ensures b.emitted <= Starting(b, t, tc).emitted
  {
    hide FaceOf, MergedName, LastId, Announcement, StartsAt, Strip, IsBlank, Register, StartTool, Started, NameOf,
      MergeName,
      StartIndices;
    var c := Register(b, t, tc);
    RegisterFaces(b, t, tc);
    OwnSnoc(t, own, tc);
    if tc.name.Some? {
      MergesAlike(MergedName(own), tc.name.value);
    }
    FaceStarted(c, t);
    if !Started(c, t) && !IsBlank(NameOf(c, t)) {
      BlankIsUnnamed();
      NamedIsKnown(c, t);
      StartToolFaces(c, t, tc);
      FirstStart(c.emitted, c.next, Announcement(t, own + [tc]).value);
    }
  }

  lemma StartingOthers(b: Builder, t: int, tc: ToolDelta, u: int)
    requires u != t
    ensures FaceOf(Starting(b, t, tc), u) == FaceOf(b, u)
  {
    RegisterFaces(b, t, tc);
    StartToolFaces(Register(b, t, tc), t, tc);
    hide FaceOf, Register, StartTool, Started, NameOf, IsBlank, Strip, MergeName;
  }

  lemma CallPresents(env: Env, c: Conn, tc: ToolDelta, t: int)
    requires Good(c.b) && Presented(c.b, t, OwnDeltas(c.calls, t))
    ensures var d := ProcessToolCall(env, c, tc); Presented(d.b, t, OwnDeltas(d.calls, t))
  {
    var u, d := ResolveIndex(c.b, tc.index), ProcessToolCall(env, c, tc);
    ProcessToolCallGood(env, c, tc);
    assert StartIndices(c.b.emitted) == CountUp(c.b.next) && StartIndices(d.b.emitted) == CountUp(d.b.next);
    CallEmits(env, c, tc);
    ProcessToolCallLogs(env, c, tc);
    OwnOne(c.calls, u, tc, t);
    hide Good, Presented, ProcessToolCall, OwnDeltas, Starting, FeedOf, FeedOne, FaceOf, StartIndices;
    var s := Starting(c.b, u, tc);
    QuietKeeps(s, d.b, t);
    SomeStart(c.b, u, tc);
    if u == t {
      StartingPresents(c.b, t, tc, OwnDeltas(c.calls, t));
      PresentedStays(s, d.b, t, OwnDeltas(d.calls, t));
    } else {
      StartingOthers(c.b, u, tc, t);
      PresentedStays(c.b, d.b, t, OwnDeltas(c.calls, t));
    }
  }

  lemma QuietKeeps(b: Builder, c: Builder, t: int)
    requires Quiet(b, c)
    ensures b.emitted <= c.emitted && FaceOf(c, t) == FaceOf(b, t)
  {
  }

  lemma SomeStart(b: Builder, t: int, tc: ToolDelta)
    ensures b.emitted <= Starting(b, t, tc).emitted
  {
    RegisterFaces(b, t, tc);
    StartToolFaces(Register(b, t, tc), t, tc);
    hide FaceOf, Register, StartTool, Started, NameOf, IsBlank, Strip, MergeName;
  }

  lemma {:induction false} CallsPresent(env: Env, c: Conn, tcs: seq<ToolDelta>, t: int)
    requires Good(c.b) && Presented(c.b, t, OwnDeltas(c.calls, t))
    ensures var d := ProcessToolCalls(env, c, tcs); Presented(d.b, t, OwnDeltas(d.calls, t))
  {
    if tcs != [] {
      hide Good, Presented, ProcessToolCall, OwnDeltas;
      CallsPresent(env, c, tcs[..|tcs| - 1], t);
      ProcessToolCallsGood(env, c, tcs[..|tcs| - 1]);
      var d := ProcessToolCalls(env, c, tcs[..|tcs| - 1]);
      if !d.failed {
        CallPresents(env, d, tcs[|tcs| - 1], t);
      }
    }
  }

  // --- text in between --------------------------------------------------------------------------------

  ghost predicate Extends(b: Builder, c: Builder) {
    b.emitted <= c.emitted && c.tools == b.tools
  }

  lemma EmitTextExtends(b: Builder, content: string)
    ensures Extends(b, EmitText(b, content)) && Extends(b, EmitThinking(b, content))
            && Extends(b, CloseContentBlocks(b))
  {
  }

  lemma {:induction false} HeuristicToolsExtend(env: Env, b: Builder, tools: seq<HeuristicTool>)
    ensures Extends(b, EmitHeuristicTools(env, b, tools))
  {
    if tools != [] {
      HeuristicToolsExtend(env, b, tools[..|tools| - 1]);
      var c := EmitHeuristicTools(env, b, tools[..|tools| - 1]);
      EmitTextExtends(c, "");
      hide CloseContentBlocks;
    }
  }

  lemma {:induction false} EmitPartsExtend(env: Env, c: Conn, parts: seq<ContentChunk>)
    ensures Extends(c.b, EmitParts(env, c, parts).b)
  {
    if parts != [] {
      EmitPartsExtend(env, c, parts[..|parts| - 1]);
      var d, part := EmitParts(env, c, parts[..|parts| - 1]), parts[|parts| - 1];
      hide EmitText, EmitThinking, EmitHeuristicTools;
      if part.thinking {
        EmitTextExtends(d.b, part.content);
      } else {
        var (filtered, tools) := env.heuristic(d.fed + [part.content]);
        EmitTextExtends(d.b, filtered);
        HeuristicToolsExtend(env, if filtered == "" then d.b else EmitText(d.b, filtered), tools);
      }
    }
  }

  lemma BeforeToolsExtends(env: Env, c: Conn, chunk: Chunk)
    ensures Extends(c.b, BeforeTools(env, c, chunk).b)
  {
    hide EmitText, EmitThinking, CloseContentBlocks, EmitParts, FeedLoop;
    EmitTextExtends(c.b, chunk.reasoning);
    var d := NoteReasoning(env, c, chunk);
    var (parts, buffer, inside) := FeedLoop(d.thinkBuffer + chunk.content, d.inThink);
    EmitPartsExtend(env, d.(thinkBuffer := buffer, inThink := inside), parts);
    EmitTextExtends(NoteContent(env, d, chunk).b, "");
  }

  lemma SameFace(b: Builder, c: Builder, t: int)
    requires c.tools == b.tools
    ensures FaceOf(c, t) == FaceOf(b, t)
  {
  }

  lemma BeforePresents(env: Env, c: Conn, chunk: Chunk, t: int)
    requires Good(c.b) && Presented(c.b, t, OwnDeltas(c.calls, t))
    ensures var d := BeforeTools(env, c, chunk); Good(d.b) && Presented(d.b, t, OwnDeltas(d.calls, t))
  {
    var d := BeforeTools(env, c, chunk);
    BeforeToolsGood(env, c, chunk);
    BeforeToolsExtends(env, c, chunk);
    BeforeToolsTools(env, c, chunk);
    SameFace(c.b, d.b, t);
    assert StartIndices(c.b.emitted) == CountUp(c.b.next) && StartIndices(d.b.emitted) == CountUp(d.b.next);
    hide BeforeTools, Presented, Good, StartIndices;
    PresentedStays(c.b, d.b, t, OwnDeltas(c.calls, t));
  }

  lemma BeforeToolsGood(env: Env, c: Conn, chunk: Chunk)
    requires Good(c.b)
    ensures Good(BeforeTools(env, c, chunk).b)
  {
    hide Good;
    EmitThinkingGood(c.b, chunk.reasoning);
    var d := NoteReasoning(env, c, chunk);
    NoteContentGood(env, d, chunk);
    CloseContentGood(NoteContent(env, d, chunk).b);
  }

  lemma NobodyPresented(t: int)
    ensures Presented(NEW_CONN.b, t, OwnDeltas([], t))
  {
  }

  lemma {:induction false} ChunksPresent(env: Env, chunks: seq<Chunk>, t: int)
    ensures var c := ProcessChunks(env, chunks); Presented(c.b, t, OwnDeltas(c.calls, t))
  {
    hide Good, Presented, OwnDeltas, ProcessToolCalls, BeforeTools;
    if chunks == [] {
      NobodyPresented(t);
    } else {
      var front, chunk := chunks[..|chunks| - 1], chunks[|chunks| - 1];
      ChunksPresent(env, front, t);
      ProcessChunksGood(env, front);
      var c := ProcessChunks(env, front);
      if !c.failed && chunk.hasDelta {
        BeforePresents(env, c, chunk, t);
        CallsPresent(env, BeforeTools(env, c, chunk), chunk.tools, t);
      }
    }
  }

  // --- the end of a response --------------------------------------------------------------------------

  lemma {:induction false} FlushAliasesQuiet(env: Env, c: Conn, keys: seq<int>)
    ensures Quiet(c.b, FlushAliases(env, c, keys).b)
  {
    hide FaceOf, EmitToolDelta;
    if keys != [] {
      FlushAliasesQuiet(env, c, keys[..|keys| - 1]);
      var d, t := FlushAliases(env, c, keys[..|keys| - 1]), keys[|keys| - 1];
      var text := BufferedText(d.aliasBuffers, t);
      if text != "" && NeedsAliasFlush(env, d, t) {
        var restored := env.restore(d.b.tools[t].name, text);
        ToolDeltaQuiet(d.b, t, if restored.Some? then restored.value else text);
      }
    }
  }

  lemma {:induction false} FlushTasksQuiet(b: Builder, keys: seq<int>, parse: string -> TaskParse)
    ensures Quiet(b, FlushTasks(b, keys, parse))
  {
    hide FaceOf, EmitToolDelta, PutTool;
    if keys != [] {
      FlushTasksQuiet(b, keys[..|keys| - 1], parse);
      var c, t := FlushTasks(b, keys[..|keys| - 1], parse), keys[|keys| - 1];
      if NeedsTaskFlush(c, t) {
        var state := c.tools[t].(taskArgBuffer := "", taskArgsEmitted := true);
        NotesQuiet(c, t, state);
        PutHas(c, t, state);
        ToolDeltaQuiet(PutTool(c, t, state), t, TaskFlushJson(c.tools[t].taskArgBuffer, parse));
      }
    }
  }

  lemma {:induction false} StopToolsExtend(b: Builder, keys: seq<int>)
    ensures Extends(b, StopTools(b, keys))
  {
    if keys != [] {
      StopToolsExtend(b, keys[..|keys| - 1]);
    }
  }

  lemma CloseAllExtends(b: Builder)
    ensures Extends(b, CloseAllBlocks(b))
  {
    EmitTextExtends(b, "");
    StopToolsExtend(CloseContentBlocks(b), CloseContentBlocks(b).order);
    hide CloseContentBlocks, StopTools;
  }

  lemma ExtendsIsQuiet(b: Builder, c: Builder)
    requires Extends(b, c)
    ensures Quiet(b, c)
  {
  }

  lemma QuietTwice(b: Builder, c: Builder, d: Builder)
    requires Quiet(b, c) && Quiet(c, d)
    ensures Quiet(b, d)
  {
    hide FaceOf;
  }

  lemma CompleteExtends(env: Env, c: Conn)
    ensures Extends(c.b, Complete(env, c).b)
  {
    hide EmitText, EmitThinking, EmitHeuristicTools, HasEmittedToolBlock, IsBlank;
    EmitTextExtends(c.b, c.thinkBuffer);
    var d := FlushThink(env, c);
    HeuristicToolsExtend(env, d.b, env.heuristicFlush(d.fed));
    EmitTextExtends(EmitHeuristicTools(env, d.b, env.heuristicFlush(d.fed)), " ");
  }

  lemma FinishQuiet(env: Env, c: Conn)
    ensures Quiet(c.b, FinishResponse(env, c))
  {
    hide Quiet, Complete, FlushAliases, FlushTasks, CloseAllBlocks, FaceOf, Extends;
    var d := Complete(env, c);
    CompleteExtends(env, c);
    ExtendsIsQuiet(c.b, d.b);
    var e := FlushAliases(env, d, d.aliasBuffers.keys);
    FlushAliasesQuiet(env, d, d.aliasBuffers.keys);
    QuietTwice(c.b, d.b, e.b);
    FlushTasksQuiet(e.b, e.b.order, env.parseTask);
    var f := FlushTasks(e.b, e.b.order, env.parseTask);
    QuietTwice(c.b, e.b, f);
    CloseAllExtends(f);
    ExtendsIsQuiet(f, CloseAllBlocks(f));
    QuietTwice(c.b, f, CloseAllBlocks(f));
    EndQuiet(CloseAllBlocks(f), MessageDelta(StopReason(c.finishReason)));
    QuietTwice(c.b, CloseAllBlocks(f), Emit(Emit(CloseAllBlocks(f), MessageDelta(StopReason(c.finishReason))),
        MessageStop));
  }

  lemma EndQuiet(b: Builder, e: Event)
    ensures Quiet(b, Emit(Emit(b, e), MessageStop)) && Quiet(b, Emit(b, e))
  {
  }

  lemma FailQuiet(b: Builder, message: string)
    ensures Quiet(b, FailResponse(b, message))
  {
    hide CloseAllBlocks, HasEmittedToolBlock;
    CloseAllExtends(b);
    var c := CloseAllBlocks(b);
    var d := if HasEmittedToolBlock(c) then Emit(c, ErrorEvent(message)) else EmitError(c, message);
    assert Extends(c, d);
    assert Extends(b, FailResponse(b, message));
    hide FailResponse;
    ExtendsIsQuiet(b, FailResponse(b, message));
  }

  /** Every response, however it ends: a tool's block is started exactly when its
      deltas have made up a name, once, at the tool's own index, as a tool_use block
      with that name without surrounding space, with the last id given by then or
      else one made from the tool's number, and with empty input. */
  lemma ToolIsAnnounced(env: Env, chunks: seq<Chunk>, broken: bool, message: string, t: int)
    ensures var r := StreamResponse(env, chunks, broken, message);
            var announced := Announcement(t, OwnDeltas(ProcessChunks(env, chunks).calls, t));
            && (Started(r, t) <==> announced.Some?)
            && (Started(r, t) ==> StartsAt(r.emitted, r.tools[t].blockIndex) == [announced.value])
  {
    var c, r := ProcessChunks(env, chunks), StreamResponse(env, chunks, broken, message);
    ChunksPresent(env, chunks, t);
    ProcessChunksGood(env, chunks);
    assert StartIndices(c.b.emitted) == CountUp(c.b.next);
    ResponseSatisfiesContract(env, chunks, broken, message);
    if c.failed || broken {
      FailQuiet(c.b, message);
    } else {
      FinishQuiet(env, c);
    }
    hide ProcessChunks, FailResponse, FinishResponse, Good, Contract, Presented;
    QuietKeeps(c.b, r, t);
    PresentedStays(c.b, r, t, OwnDeltas(c.calls, t));
    PresentedMeans(r, t, OwnDeltas(c.calls, t));
  }

  lemma PresentedMeans(b: Builder, t: int, own: seq<ToolDelta>)
    requires Presented(b, t, own)
    ensures Started(b, t) <==> Announcement(t, own).Some?
    ensures Started(b, t) ==> StartsAt(b.emitted, b.tools[t].blockIndex) == [Announcement(t, own).value]
  {
  }

  // --- tools the heuristic parser finds ---------------------------------------------------------------

  /** A start with the tool's own id and name, its input, and a stop. */
  function HeuristicEvents(env: Env, tools: seq<HeuristicTool>, next: int): seq<Event> {
    if tools == [] then []
    else
      var tool := tools[0];
      [BlockStart(next, Block(ToolUse, "", Given(tool.id), tool.name, "{}")),
       BlockDelta(next, Delta(InputJsonDelta, if tool.name == "Task" then env.foreground(tool.input) else tool.input)),
       BlockStop(next)] + HeuristicEvents(env, tools[1..], next + 1)
  }

  lemma {:induction false} HeuristicSnoc(env: Env, tools: seq<HeuristicTool>, tool: HeuristicTool, next: int)
    ensures HeuristicEvents(env, tools + [tool], next) ==
              HeuristicEvents(env, tools, next) + HeuristicEvents(env, [tool], next + |tools|)
  {
    if tools == [] {
      assert [] + [tool] == [tool];
    } else {
      assert (tools + [tool])[0] == tools[0] && (tools + [tool])[1..] == tools[1..] + [tool];
      HeuristicSnoc(env, tools[1..], tool, next + 1);
    }
  }

  lemma OneHeuristic(env: Env, b: Builder, tool: HeuristicTool)
    requires !b.textStarted && !b.thinkingStarted
    ensures EmitHeuristicTool(env, b, tool) == b.(next := b.next + 1, emitted :=
            b.emitted + HeuristicEvents(env, [tool], b.next))
  {
    assert [tool][1..] == [];
    var start := BlockStart(b.next, Block(ToolUse, "", Given(tool.id), tool.name, "{}"));
    var delta := BlockDelta(b.next, Delta(InputJsonDelta, if tool.name ==
        "Task" then env.foreground(tool.input) else tool.input));
    var stop := BlockStop(b.next);
    assert HeuristicEvents(env, [tool], b.next) == [start, delta, stop] + [];
    assert b.emitted + [start] + [delta] + [stop] == b.emitted + [start, delta, stop];
  }

  lemma ClosedContent(b: Builder)
    ensures var c := CloseContentBlocks(b); !c.textStarted && !c.thinkingStarted && c.next == b.next
  {
  }

  /** Builder `c` with the events of some heuristic tools. */
  function WithTools(env: Env, c: Builder, tools: seq<HeuristicTool>): Builder {
    c.(next := c.next + |tools|, emitted := c.emitted + HeuristicEvents(env, tools, c.next))
  }

  lemma WithOneMore(env: Env, c: Builder, front: seq<HeuristicTool>, tool: HeuristicTool)
    ensures WithTools(env, WithTools(env, c, front), [tool]) == WithTools(env, c, front + [tool])
  {
    HeuristicSnoc(env, front, tool, c.next);
    hide HeuristicEvents;
    assert c.emitted + HeuristicEvents(env, front, c.next) + HeuristicEvents(env, [tool], c.next + |front|)
        == c.emitted + HeuristicEvents(env, front + [tool], c.next);
  }

  /** After text and thinking have been closed, each tool found is sent as a block
      of its own, in the order found. */
  lemma {:induction false} HeuristicToolsAnnounced(env: Env, b: Builder, tools: seq<HeuristicTool>)
    requires tools != []
    ensures EmitHeuristicTools(env, b, tools) == WithTools(env, CloseContentBlocks(b), tools)
  {
    var front, tool := tools[..|tools| - 1], tools[|tools| - 1];
    var c := CloseContentBlocks(b);
    ClosedContent(b);
    assert tools == front + [tool];
    WithOneMore(env, c, front, tool);
    if front == [] {
      CloseTwice(env, b, tool);
      OneHeuristic(env, c, tool);
      hide CloseContentBlocks, HeuristicEvents, EmitHeuristicTool;
      assert [] + [tool] == [tool];
    } else {
      hide CloseContentBlocks, HeuristicEvents, EmitHeuristicTool;
      HeuristicToolsAnnounced(env, b, front);
      OneHeuristic(env, EmitHeuristicTools(env, b, front), tool);
    }
  }

  lemma CloseTwice(env: Env, b: Builder, tool: HeuristicTool)
    ensures EmitHeuristicTool(env, b, tool) == EmitHeuristicTool(env, CloseContentBlocks(b), tool)
  {
    ClosedContent(b);
  }
}
