/** Every response of the OpenAI transport satisfies the stream contract,
    whatever the upstream, the heuristic parser and the failures are. */
module TransportContract {
  import opened Common
  import opened StreamContract
  import opened SseBuilding
  import opened ThinkTags
  import opened OpenAiTransport

  // --- the invariant ---------------------------------------------------------------------

  ghost predicate IsToolBlock(b: Builder, i: int) {
    exists t :: Started(b, t) && b.tools[t].blockIndex == i
  }

  /** The flags and tool states of a builder account for exactly the open blocks. */
  ghost predicate Accounts(b: Builder, open: map<int, Storage>) {
    && (b.thinkingStarted ==> b.thinkingIndex in open && open[b.thinkingIndex] == Plain(Thinking))
    && (b.textStarted ==> b.textIndex in open && open[b.textIndex] == Plain(Text))
    && (forall t | Started(b, t) :: b.tools[t].blockIndex in open && open[b.tools[t].blockIndex] == Plain(ToolUse))
    && (forall t, u | Started(b, t) && Started(b, u) && b.tools[t].blockIndex == b.tools[u].blockIndex :: t == u)
    && (forall i | i in open ::
          || (b.thinkingStarted && i == b.thinkingIndex)
          || (b.textStarted && i == b.textIndex)
          || IsToolBlock(b, i))
  }

  /** Indices already used are 0..next-1, started in that order. */
  ghost predicate Numbered(b: Builder, seen: set<int>) {
    && (forall i :: i in seen <==> 0 <= i < b.next)
    && StartIndices(b.emitted) == CountUp(b.next)
    && -1 <= b.textIndex < b.next
    && -1 <= b.thinkingIndex < b.next
  }

  ghost predicate Ordered(b: Builder) {
    && (forall t :: t in b.tools <==> t in b.order)
    && (forall i, j | 0 <= i < j < |b.order| :: b.order[i] != b.order[j])
  }

  ghost predicate Opened(es: seq<Event>) {
    es != [] && es[0] == MessageStart
  }

  function AsJson(contents: seq<string>): seq<Delta> {
    seq(|contents|, i requires 0 <= i < |contents| => Delta(InputJsonDelta, contents[i]))
  }

  /** The deltas sent to a tool's block are the tool's recorded contents. */
  ghost predicate Faithful(b: Builder) {
    && (forall t | Started(b, t) :: DeltasOf(b.emitted, b.tools[t].blockIndex) == AsJson(b.tools[t].contents))
    && (forall t | t in b.tools && !b.tools[t].started :: b.tools[t].contents == [])
  }

  ghost predicate Good(b: Builder) {
    var scan := ScanAll(b.emitted, false);
    && scan.Live?
    && Opened(b.emitted)
    && Numbered(b, scan.seen)
    && Ordered(b)
    && Accounts(b, scan.open)
    && scan.open.Keys <= scan.seen
    && Faithful(b)
  }

  lemma EmitScan(es: seq<Event>, e: Event)
    ensures ScanAll(es + [e], false) == Step(ScanAll(es, false), e, false)
    ensures StartIndices(es + [e]) == StartIndices(es) + StartOf(e)
    ensures Opened(es) ==> Opened(es + [e])
  {
    ScanOne(EMPTY_SCAN, es, e, false);
    CollectOne(StartOf, es, e);
  }

  /** An event that is no delta of block `i` leaves the deltas of `i` alone. */
  lemma EmitOther(es: seq<Event>, e: Event, i: int)
    ensures DeltasOf(es + [e], i) == DeltasOf(es, i) + if e.BlockDelta? && e.index == i then [e.delta] else []
  {
    CollectOne((x: Event) => if x.BlockDelta? && x.index == i then [x.delta] else [], es, e);
  }

  /** Events that go to no tool block keep the recorded contents faithful. */
  lemma EmitFaithful(b: Builder, c: Builder, e: Event)
    requires Faithful(b) && c.emitted == b.emitted + [e]
    requires c.tools == b.tools
    requires e.BlockDelta? ==> forall t | Started(b, t) :: b.tools[t].blockIndex != e.index
    ensures Faithful(c)
  {
    forall t | Started(c, t)
      ensures DeltasOf(c.emitted, c.tools[t].blockIndex) == AsJson(c.tools[t].contents)
    {
      assert Started(b, t);
      EmitOther(b.emitted, e, b.tools[t].blockIndex);
    }
  }

  lemma CountOneMore(n: nat)
    ensures CountUp(n) + [n as int] == CountUp(n + 1)
  {
  }

  // --- text and thinking blocks --------------------------------------------------------------

  lemma StartThinkingGood(b: Builder)
    requires Good(b) && !b.thinkingStarted
    ensures Good(StartThinkingBlock(b))
  {
    var c := StartThinkingBlock(b);
    EmitScan(b.emitted, BlockStart(b.next, ThinkingBlock()));
    CountOneMore(b.next);
    var scan := ScanAll(c.emitted, false);
    assert scan.open == ScanAll(b.emitted, false).open[b.next := Plain(Thinking)];
    assert forall i :: IsToolBlock(b, i) ==> IsToolBlock(c, i);
    EmitFaithful(b, c, BlockStart(b.next, ThinkingBlock()));
  }

  lemma StartTextGood(b: Builder)
    requires Good(b) && !b.textStarted
    ensures Good(StartTextBlock(b))
  {
    var c := StartTextBlock(b);
    EmitScan(b.emitted, BlockStart(b.next, TextBlock()));
    CountOneMore(b.next);
    var scan := ScanAll(c.emitted, false);
    assert IsBlank("");
    assert scan.open == ScanAll(b.emitted, false).open[b.next := Plain(Text)];
    assert forall i :: IsToolBlock(b, i) ==> IsToolBlock(c, i);
    EmitFaithful(b, c, BlockStart(b.next, TextBlock()));
  }

  lemma StopThinkingGood(b: Builder)
    requires Good(b) && b.thinkingStarted
    ensures Good(StopThinkingBlock(b))
  {
    var c := StopThinkingBlock(b);
    EmitScan(b.emitted, BlockStop(b.thinkingIndex));
    assert forall i :: IsToolBlock(b, i) ==> IsToolBlock(c, i);
    EmitFaithful(b, c, BlockStop(b.thinkingIndex));
  }

  lemma StopTextGood(b: Builder)
    requires Good(b) && b.textStarted
    ensures Good(StopTextBlock(b))
  {
    var c := StopTextBlock(b);
    EmitScan(b.emitted, BlockStop(b.textIndex));
    assert forall i :: IsToolBlock(b, i) ==> IsToolBlock(c, i);
    EmitFaithful(b, c, BlockStop(b.textIndex));
  }

  lemma EnsureThinkingGood(b: Builder)
    requires Good(b)
    ensures Good(EnsureThinkingBlock(b)) && EnsureThinkingBlock(b).thinkingStarted
            && !EnsureThinkingBlock(b).textStarted
  {
    if b.textStarted {
      StopTextGood(b);
    }
    var c := if b.textStarted then StopTextBlock(b) else b;
    if !c.thinkingStarted {
      StartThinkingGood(c);
    }
  }

  lemma EnsureTextGood(b: Builder)
    requires Good(b)
    ensures Good(EnsureTextBlock(b)) && EnsureTextBlock(b).textStarted && !EnsureTextBlock(b).thinkingStarted
  {
    if b.thinkingStarted {
      StopThinkingGood(b);
    }
    var c := if b.thinkingStarted then StopThinkingBlock(b) else b;
    if !c.textStarted {
      StartTextGood(c);
    }
  }

  lemma EmitThinkingGood(b: Builder, content: string)
    requires Good(b)
    ensures Good(EmitThinking(b, content))
  {
    EnsureThinkingGood(b);
    var c := EnsureThinkingBlock(b);
    EmitScan(c.emitted, BlockDelta(c.thinkingIndex, Delta(ThinkingDelta, content)));
    var d := EmitThinking(b, content);
    assert forall i :: IsToolBlock(c, i) ==> IsToolBlock(d, i);
    EmitFaithful(c, d, BlockDelta(c.thinkingIndex, Delta(ThinkingDelta, content)));
  }

  lemma EmitTextGood(b: Builder, content: string)
    requires Good(b)
    ensures Good(EmitText(b, content)) && EmitText(b, content).textIndex >= 0
  {
    EnsureTextGood(b);
    var c := EnsureTextBlock(b);
    EmitScan(c.emitted, BlockDelta(c.textIndex, Delta(TextDelta, content)));
    var d := EmitText(b, content);
    assert forall i :: IsToolBlock(c, i) ==> IsToolBlock(d, i);
    EmitFaithful(c, d, BlockDelta(c.textIndex, Delta(TextDelta, content)));
  }

  lemma CloseContentGood(b: Builder)
    requires Good(b)
    ensures Good(CloseContentBlocks(b))
    ensures !CloseContentBlocks(b).textStarted && !CloseContentBlocks(b).thinkingStarted
  {
    if b.thinkingStarted {
      StopThinkingGood(b);
    }
    var c := if b.thinkingStarted then StopThinkingBlock(b) else b;
    if c.textStarted {
      StopTextGood(c);
    }
  }

  function Flash(b: Builder, block: Block, delta: Delta): Builder {
    Emit(Emit(Emit(b.(next := b.next + 1), BlockStart(b.next, block)), BlockDelta(b.next, delta)), BlockStop(b.next))
  }

  lemma FlashFaithful(b: Builder, block: Block, delta: Delta)
    requires Good(b)
    ensures Faithful(Flash(b, block, delta))
  {
    var e1, e2, e3 := BlockStart(b.next, block), BlockDelta(b.next, delta), BlockStop(b.next);
    assert Faithful(b) && forall t | Started(b, t) :: b.tools[t].blockIndex != b.next;
    hide Good, Faithful;
    EmitFaithful(b, Emit(b, e1), e1);
    EmitFaithful(Emit(b, e1), Emit(Emit(b, e1), e2), e2);
    EmitFaithful(Emit(Emit(b, e1), e2), Flash(b, block, delta), e3);
  }

  lemma FlashScan(b: Builder, block: Block, delta: Delta)
    requires Good(b) && AllowedStart(block.kind) && Fits(StorageOf(block), delta.kind)
    ensures var scan, c := ScanAll(b.emitted, false), Flash(b, block, delta);
            && ScanAll(c.emitted, false) == Live(scan.open, scan.seen + {b.next})
            && Opened(c.emitted) && StartIndices(c.emitted) == CountUp(c.next)
  {
    var e1, e2, e3 := BlockStart(b.next, block), BlockDelta(b.next, delta), BlockStop(b.next);
    var open := ScanAll(b.emitted, false).open;
    assert open[b.next := StorageOf(block)] - {b.next} == open;
    CountOneMore(b.next);
    assert StartIndices(b.emitted) == CountUp(b.next) && b.next !in ScanAll(b.emitted, false).seen;
    assert ScanAll(b.emitted, false).Live? && Opened(b.emitted) && b.next !in open;
    hide Good;
    EmitScan(b.emitted, e1);
    EmitScan(b.emitted + [e1], e2);
    EmitScan(b.emitted + [e1] + [e2], e3);
  }

  /** A block opened and closed at once (heuristic tools and error texts). */
  lemma FlashBlockGood(b: Builder, block: Block, delta: Delta)
    requires Good(b) && AllowedStart(block.kind) && Fits(StorageOf(block), delta.kind)
    ensures Good(Flash(b, block, delta))
  {
    FlashFaithful(b, block, delta);
    FlashScan(b, block, delta);
    hide Faithful, StorageOf, Fits, Opened;
    var c := Flash(b, block, delta);
    assert forall i :: IsToolBlock(b, i) ==> IsToolBlock(c, i);
  }

  lemma HeuristicToolGood(env: Env, b: Builder, tool: HeuristicTool)
    requires Good(b)
    ensures Good(EmitHeuristicTool(env, b, tool))
  {
    hide Good;
    CloseContentGood(b);
    var input := if tool.name == "Task" then env.foreground(tool.input) else tool.input;
    FlashBlockGood(CloseContentBlocks(b), ToolBlock(Given(tool.id), tool.name), Delta(InputJsonDelta, input));
  }

  lemma {:induction false} HeuristicToolsGood(env: Env, b: Builder, tools: seq<HeuristicTool>)
    requires Good(b)
    ensures Good(EmitHeuristicTools(env, b, tools))
  {
    if tools != [] {
      HeuristicToolsGood(env, b, tools[..|tools| - 1]);
      HeuristicToolGood(env, EmitHeuristicTools(env, b, tools[..|tools| - 1]), tools[|tools| - 1]);
    }
  }

  // --- tool blocks ------------------------------------------------------------------------------

  /** Changing a tool state without touching its block. */
  predicate OnlyNotes(b: Builder, t: int, state: ToolCallState) {
    if t in b.tools then
      state == b.tools[t].(toolId := state.toolId, name := state.name, taskArgBuffer := state.taskArgBuffer,
                           taskArgsEmitted := state.taskArgsEmitted, preStartArgs := state.preStartArgs)
    else !state.started && state.contents == []
  }

  lemma PutToolBlocks(b: Builder, t: int, state: ToolCallState)
    requires OnlyNotes(b, t, state)
    ensures var c := PutTool(b, t, state);
            forall u :: (Started(c, u) <==> Started(b, u))
                     && (Started(b, u) ==>
                           c.tools[u].blockIndex == b.tools[u].blockIndex && c.tools[u].contents == b.tools[u].contents)
  {
  }

  lemma PutToolAccounts(b: Builder, t: int, state: ToolCallState, open: map<int, Storage>)
    requires OnlyNotes(b, t, state) && Accounts(b, open)
    ensures Accounts(PutTool(b, t, state), open)
  {
    var c := PutTool(b, t, state);
    PutToolBlocks(b, t, state);
    hide OnlyNotes;
    forall i | IsToolBlock(b, i)
      ensures IsToolBlock(c, i)
    {
      var u :| Started(b, u) && b.tools[u].blockIndex == i;
      assert Started(c, u) && c.tools[u].blockIndex == i;
    }
  }

  lemma PutToolOrdered(b: Builder, t: int, state: ToolCallState)
    requires Ordered(b)
    ensures Ordered(PutTool(b, t, state))
  {
  }

  lemma PutToolFaithful(b: Builder, t: int, state: ToolCallState)
    requires OnlyNotes(b, t, state) && Faithful(b)
    ensures Faithful(PutTool(b, t, state))
  {
    PutToolBlocks(b, t, state);
  }

  lemma PutToolGood(b: Builder, t: int, state: ToolCallState)
    requires Good(b) && OnlyNotes(b, t, state)
    ensures Good(PutTool(b, t, state))
    ensures forall u :: Started(PutTool(b, t, state), u) <==> Started(b, u)
  {
    PutToolBlocks(b, t, state);
    hide Accounts, Ordered, Faithful, OnlyNotes;
    PutToolAccounts(b, t, state, ScanAll(b.emitted, false).open);
    PutToolOrdered(b, t, state);
    PutToolFaithful(b, t, state);
  }

  lemma StartToolFaithful(b: Builder, t: int, id: ToolId, toolId: string, name: string)
    requires Good(b) && !Started(b, t)
    ensures Faithful(StartToolBlock(b, t, id, toolId, name))
  {
    var c := StartToolBlock(b, t, id, toolId, name);
    var e := BlockStart(b.next, ToolBlock(id, name));
    UnseenHasNoDeltas(b.emitted, b.next, false);
    EmitOther(b.emitted, e, b.next);
    forall u | Started(c, u) && u != t
      ensures DeltasOf(c.emitted, c.tools[u].blockIndex) == AsJson(c.tools[u].contents)
    {
      assert Started(b, u);
      EmitOther(b.emitted, e, b.tools[u].blockIndex);
    }
    assert c.tools[t].contents == [];
  }

  lemma StartToolAccounts(b: Builder, t: int, id: ToolId, toolId: string, name: string, open: map<int, Storage>)
    requires Accounts(b, open) && !Started(b, t) && b.next !in open
    ensures Accounts(StartToolBlock(b, t, id, toolId, name), open[b.next := Plain(ToolUse)])
    ensures Started(StartToolBlock(b, t, id, toolId, name), t)
  {
    var c := StartToolBlock(b, t, id, toolId, name);
    assert Started(c, t) && c.tools[t].blockIndex == b.next;
    forall i | IsToolBlock(b, i)
      ensures IsToolBlock(c, i)
    {
      var u :| Started(b, u) && b.tools[u].blockIndex == i;
      assert Started(c, u) && c.tools[u].blockIndex == i;
    }
    assert IsToolBlock(c, b.next);
  }

  lemma StartToolGood(b: Builder, t: int, id: ToolId, toolId: string, name: string)
    requires Good(b) && !Started(b, t)
    ensures Good(StartToolBlock(b, t, id, toolId, name))
    ensures Started(StartToolBlock(b, t, id, toolId, name), t)
  {
    StartToolFaithful(b, t, id, toolId, name);
    StartToolAccounts(b, t, id, toolId, name, ScanAll(b.emitted, false).open);
    hide Faithful, Accounts;
    var c := StartToolBlock(b, t, id, toolId, name);
    EmitScan(b.emitted, BlockStart(b.next, ToolBlock(id, name)));
    CountOneMore(b.next);
    assert ScanAll(c.emitted, false).open == ScanAll(b.emitted, false).open[b.next := Plain(ToolUse)];
  }

  lemma ToolDeltaFaithful(b: Builder, t: int, json: string)
    requires Good(b) && Started(b, t)
    ensures Faithful(EmitToolDelta(b, t, json))
  {
    var c := EmitToolDelta(b, t, json);
    var e := BlockDelta(b.tools[t].blockIndex, Delta(InputJsonDelta, json));
    forall u | Started(c, u)
      ensures DeltasOf(c.emitted, c.tools[u].blockIndex) == AsJson(c.tools[u].contents)
    {
      assert Started(b, u);
      EmitOther(b.emitted, e, b.tools[u].blockIndex);
    }
  }

  lemma ToolDeltaGood(b: Builder, t: int, json: string)
    requires Good(b) && Started(b, t)
    ensures Good(EmitToolDelta(b, t, json))
    ensures forall u :: Started(EmitToolDelta(b, t, json), u) <==> Started(b, u)
  {
    var c := EmitToolDelta(b, t, json);
    EmitScan(b.emitted, BlockDelta(b.tools[t].blockIndex, Delta(InputJsonDelta, json)));
    assert forall u :: Started(c, u) <==> Started(b, u);
    assert forall u | Started(c, u) :: c.tools[u].blockIndex == b.tools[u].blockIndex;
    forall i | IsToolBlock(b, i)
      ensures IsToolBlock(c, i)
    {
      var u :| Started(b, u) && b.tools[u].blockIndex == i;
      assert Started(c, u) && c.tools[u].blockIndex == i;
    }
    ToolDeltaFaithful(b, t, json);
  }

  lemma BufferTaskGood(b: Builder, t: int, args: string, parse: string -> TaskParse)
    requires Good(b) && Started(b, t)
    ensures Good(BufferTaskArgs(b, t, args, parse).b)
    ensures forall u :: Started(BufferTaskArgs(b, t, args, parse).b, u) <==> Started(b, u)
  {
    if !b.tools[t].taskArgsEmitted {
      var r := BufferTaskArgs(b, t, args, parse);
      PutToolGood(b, t, r.b.tools[t]);
    }
  }

  lemma EmitToolArgGood(env: Env, c: Conn, t: int, args: string)
    requires Good(c.b) && Started(c.b, t)
    ensures Good(EmitToolArg(env, c, t, args).b) && Started(EmitToolArg(env, c, t, args).b, t)
  {
    hide Good;
    if args != "" {
      var name := c.b.tools[t].name;
      if name == "Task" {
        var r := BufferTaskArgs(c.b, t, args, env.parseTask);
        BufferTaskGood(c.b, t, args, env.parseTask);
        if r.json.Some? {
          ToolDeltaGood(r.b, t, r.json.value);
        }
      } else if env.aliased(name) {
        var restored := env.restore(name, BufferedText(c.aliasBuffers, t) + args);
        if restored.Some? {
          ToolDeltaGood(c.b, t, restored.value);
        }
      } else {
        ToolDeltaGood(c.b, t, args);
      }
    }
  }

  lemma RegisterGood(b: Builder, t: int, tc: ToolDelta)
    requires Good(b)
    ensures Good(Register(b, t, tc))
    ensures forall u :: Started(Register(b, t, tc), u) <==> Started(b, u)
  {
    hide Good;
    var withId := if tc.id.Some? then SetStreamToolId(b, t, tc.id.value) else b;
    if tc.id.Some? && tc.id.value != "" {
      var c := EnsureToolState(b, t);
      if t !in b.tools {
        PutToolGood(b, t, NEW_TOOL);
      }
      PutToolGood(c, t, c.tools[t].(toolId := tc.id.value));
    }
    if tc.name.Some? {
      if t in withId.tools {
        PutToolGood(withId, t, withId.tools[t].(name := MergeName(withId.tools[t].name, tc.name.value)));
      } else {
        PutToolGood(withId, t, NEW_TOOL.(name := tc.name.value));
      }
    }
  }

  lemma StartIfNamedGood(env: Env, c: Conn, t: int, tc: ToolDelta)
    requires Good(c.b)
    ensures Good(StartIfNamed(env, c, t, tc).b)
    ensures Started(c.b, t) ==> Started(StartIfNamed(env, c, t, tc).b, t)
  {
    hide Good;
    if !Started(c.b, t) && !IsBlank(NameOf(c.b, t)) {
      var id := ResolvedId(c.b, t, tc);
      StartToolGood(c.b, t, if id != "" then Given(id) else Generated(t), id, Strip(NameOf(c.b, t)));
      var b := StartTool(c.b, t, tc);
      if b.tools[t].preStartArgs != "" {
        PutToolGood(b, t, b.tools[t].(preStartArgs := ""));
        EmitToolArgGood(env, c.(b := PutTool(b, t, b.tools[t].(preStartArgs := ""))), t, b.tools[t].preStartArgs);
      }
    }
  }

  lemma ProcessToolCallGood(env: Env, c: Conn, tc: ToolDelta)
    requires Good(c.b)
    ensures Good(ProcessToolCall(env, c, tc).b)
  {
    hide Good;
    var t := ResolveIndex(c.b, tc.index);
    RegisterGood(c.b, t, tc);
    var c1 := c.(b := Register(c.b, t, tc), calls := c.calls + [(t, tc)]);
    StartIfNamedGood(env, c1, t, tc);
    var c2 := StartIfNamed(env, c1, t, tc);
    if !c2.failed && tc.args != "" {
      if !Started(c2.b, t) {
        var d := EnsureToolState(c2.b, t);
        if t !in c2.b.tools {
          PutToolGood(c2.b, t, NEW_TOOL);
        }
        PutToolGood(d, t, d.tools[t].(preStartArgs := d.tools[t].preStartArgs + tc.args));
      } else {
        EmitToolArgGood(env, c2, t, tc.args);
      }
    }
  }

  lemma {:induction false} ProcessToolCallsGood(env: Env, c: Conn, tcs: seq<ToolDelta>)
    requires Good(c.b)
    ensures Good(ProcessToolCalls(env, c, tcs).b)
  {
    if tcs != [] {
      ProcessToolCallsGood(env, c, tcs[..|tcs| - 1]);
      var d := ProcessToolCalls(env, c, tcs[..|tcs| - 1]);
      if !d.failed {
        ProcessToolCallGood(env, d, tcs[|tcs| - 1]);
      }
    }
  }

  // --- chunks ------------------------------------------------------------------------------------

  lemma EmitPartGood(env: Env, c: Conn, part: ContentChunk)
    requires Good(c.b)
    ensures Good(EmitPart(env, c, part).b)
  {
    if part.thinking {
      EmitThinkingGood(c.b, part.content);
    } else {
      var (filtered, tools) := env.heuristic(c.fed + [part.content]);
      EmitTextGood(c.b, filtered);
      HeuristicToolsGood(env, if filtered == "" then c.b else EmitText(c.b, filtered), tools);
    }
  }

  lemma {:induction false} EmitPartsGood(env: Env, c: Conn, parts: seq<ContentChunk>)
    requires Good(c.b)
    ensures Good(EmitParts(env, c, parts).b)
  {
    if parts != [] {
      EmitPartsGood(env, c, parts[..|parts| - 1]);
      EmitPartGood(env, EmitParts(env, c, parts[..|parts| - 1]), parts[|parts| - 1]);
    }
  }

  lemma NoteContentGood(env: Env, c: Conn, chunk: Chunk)
    requires Good(c.b)
    ensures Good(NoteContent(env, c, chunk).b)
  {
    var (parts, buffer, inside) := FeedLoop(c.thinkBuffer + chunk.content, c.inThink);
    EmitPartsGood(env, c.(thinkBuffer := buffer, inThink := inside), parts);
  }

  lemma ProcessChunkGood(env: Env, c: Conn, chunk: Chunk)
    requires Good(c.b)
    ensures Good(ProcessChunk(env, c, chunk).b)
  {
    hide Good;
    EmitThinkingGood(c.b, chunk.reasoning);
    var d := NoteReasoning(env, c, chunk);
    NoteContentGood(env, d, chunk);
    CloseContentGood(NoteContent(env, d, chunk).b);
    ProcessToolCallsGood(env, BeforeTools(env, c, chunk), chunk.tools);
  }

  lemma NewConnGood()
    ensures Good(NEW_CONN.b)
  {
    EmitScan([], MessageStart);
    assert [] + [MessageStart] == [MessageStart];
  }

  /** The invariant holds after any number of chunks. */
  lemma {:induction false} ProcessChunksGood(env: Env, chunks: seq<Chunk>)
    ensures Good(ProcessChunks(env, chunks).b)
  {
    if chunks == [] {
      NewConnGood();
    } else {
      ProcessChunksGood(env, chunks[..|chunks| - 1]);
      var c := ProcessChunks(env, chunks[..|chunks| - 1]);
      if !c.failed {
        ProcessChunkGood(env, c, chunks[|chunks| - 1]);
      }
    }
  }

  // --- the end of a response ------------------------------------------------------------------------

  lemma FlushThinkGood(env: Env, c: Conn)
    requires Good(c.b)
    ensures Good(FlushThink(env, c).b)
  {
    EmitTextGood(c.b, c.thinkBuffer);
    EmitThinkingGood(c.b, c.thinkBuffer);
  }

  lemma EnsureContentGood(b: Builder)
    requires Good(b)
    ensures Good(EnsureContent(b)) && EnsureContent(b).next > 0
  {
    EmitTextGood(b, " ");
    if HasEmittedToolBlock(b) {
      var t :| t in b.tools && b.tools[t].started;
      assert Started(b, t);
    }
  }

  /** Alias buffers only ever hold arguments of tools whose block has started. */
  ghost predicate BuffersStarted(c: Conn) {
    forall t | t in c.aliasBuffers.texts :: Started(c.b, t)
  }

  lemma {:induction false} FlushAliasesGood(env: Env, c: Conn, keys: seq<int>)
    requires Good(c.b) && BuffersStarted(c)
    ensures var d := FlushAliases(env, c, keys); Good(d.b) && BuffersStarted(d) && d.b.next == c.b.next
  {
    hide Good;
    if keys != [] {
      FlushAliasesGood(env, c, keys[..|keys| - 1]);
      var d := FlushAliases(env, c, keys[..|keys| - 1]);
      var t := keys[|keys| - 1];
      var text := BufferedText(d.aliasBuffers, t);
      if text != "" && NeedsAliasFlush(env, d, t) {
        var restored := env.restore(d.b.tools[t].name, text);
        ToolDeltaGood(d.b, t, if restored.Some? then restored.value else text);
      }
    }
  }

  /** Task buffers too. */
  ghost predicate TasksStarted(b: Builder) {
    forall t | t in b.tools && b.tools[t].taskArgBuffer != "" :: b.tools[t].started
  }

  lemma {:induction false} FlushTasksGood(b: Builder, keys: seq<int>, parse: string -> TaskParse)
    requires Good(b) && TasksStarted(b)
    ensures var c := FlushTasks(b, keys, parse); Good(c) && TasksStarted(c) && c.next == b.next
  {
    hide Good;
    if keys != [] {
      FlushTasksGood(b, keys[..|keys| - 1], parse);
      var c := FlushTasks(b, keys[..|keys| - 1], parse);
      var t := keys[|keys| - 1];
      if NeedsTaskFlush(c, t) {
        var state := c.tools[t].(taskArgBuffer := "", taskArgsEmitted := true);
        PutToolGood(c, t, state);
        ToolDeltaGood(PutTool(c, t, state), t, TaskFlushJson(c.tools[t].taskArgBuffer, parse));
      }
    }
  }

  lemma {:induction false} StopToolsScan(b: Builder, n: nat)
    requires Good(b) && !b.textStarted && !b.thinkingStarted && n <= |b.order|
    ensures var c := StopTools(b, b.order[..n]);
            var scan := ScanAll(c.emitted, false);
            && c == b.(emitted := c.emitted)
            && Opened(c.emitted) && StartIndices(c.emitted) == StartIndices(b.emitted) && Faithful(c)
            && scan.Live? && scan.seen == ScanAll(b.emitted, false).seen
            && (forall i | i in scan.open :: i in ScanAll(b.emitted, false).open)
            && (forall t | Started(b, t) :: b.tools[t].blockIndex in scan.open <==> t !in b.order[..n])
  {
    if n > 0 {
      StopToolsScan(b, n - 1);
      assert b.order[..n][..n - 1] == b.order[..n - 1];
      var c := StopTools(b, b.order[..n - 1]);
      var t := b.order[n - 1];
      assert b.order[..n] == b.order[..n - 1] + [t];
      assert t !in b.order[..n - 1];
      if Started(b, t) {
        EmitScan(c.emitted, BlockStop(b.tools[t].blockIndex));
        EmitFaithful(c, Emit(c, BlockStop(b.tools[t].blockIndex)), BlockStop(b.tools[t].blockIndex));
      }
    }
  }

  /** Without content blocks, only the blocks of started tools are open. */
  lemma OnlyToolsOpen(b: Builder, open: map<int, Storage>)
    requires Good(b) && !b.textStarted && !b.thinkingStarted
    requires forall i | i in open :: i in ScanAll(b.emitted, false).open
    requires forall t | Started(b, t) :: b.tools[t].blockIndex !in open
    ensures open == map[]
  {
    assert forall i | i in open :: IsToolBlock(b, i);
    assert forall i :: i !in open;
  }

  lemma StartedAreListed(b: Builder)
    requires Good(b)
    ensures forall t | Started(b, t) :: t in b.order
  {
  }

  /** Closing everything leaves no block open and starts none. */
  lemma CloseAllScan(b: Builder)
    requires Good(b)
    ensures var c := CloseAllBlocks(b);
            && ScanAll(c.emitted, false).Live? && ScanAll(c.emitted, false).open == map[]
            && Opened(c.emitted) && Numbered(c, ScanAll(c.emitted, false).seen)
            && c.tools == b.tools && c.next == b.next && Faithful(c)
  {
    CloseContentGood(b);
    var c := CloseContentBlocks(b);
    assert Numbered(c, ScanAll(c.emitted, false).seen);
    hide Good, Faithful, Opened;
    StopToolsScan(c, |c.order|);
    assert c.order[..|c.order|] == c.order;
    StartedAreListed(c);
    OnlyToolsOpen(c, ScanAll(CloseAllBlocks(b).emitted, false).open);
  }

  /** The two closing events of every response. */
  lemma CloseMessage(es: seq<Event>, reason: string, ae: bool)
    requires Opened(es) && ScanAll(es, ae).Live? && ScanAll(es, ae).open == map[] && ScanAll(es, ae).seen != {}
    ensures Contract(es + [MessageDelta(reason)] + [MessageStop], ae)
    ensures StartIndices(es + [MessageDelta(reason)] + [MessageStop]) == StartIndices(es)
    ensures Opened(es + [MessageDelta(reason)] + [MessageStop])
  {
    var a := es + [MessageDelta(reason)];
    var b := a + [MessageStop];
    ScanOne(EMPTY_SCAN, es, MessageDelta(reason), ae);
    ScanOne(EMPTY_SCAN, a, MessageStop, ae);
    CollectOne(StartOf, es, MessageDelta(reason));
    CollectOne(StartOf, a, MessageStop);
    assert b[0] == MessageStart && b[|b| - 1] == MessageStop;
  }

  /** An error after a tool block: a top-level error event, which only the
      relaxed contract accepts. */
  lemma FailAfterTool(c: Builder, message: string)
    requires Opened(c.emitted) && ScanAll(c.emitted, false).Live? && ScanAll(c.emitted, false).open == map[]
    requires ScanAll(c.emitted, false).seen != {}
    ensures var out := c.emitted + [ErrorEvent(message)] + [MessageDelta("end_turn")] + [MessageStop];
            && Contract(out, true) && !Contract(out, false)
            && Opened(out) && StartIndices(out) == StartIndices(c.emitted)
  {
    var es := c.emitted + [ErrorEvent(message)];
    AllowingErrorsIsWeaker(c.emitted);
    ScanOne(EMPTY_SCAN, c.emitted, ErrorEvent(message), true);
    ScanOne(EMPTY_SCAN, c.emitted, ErrorEvent(message), false);
    CollectOne(StartOf, c.emitted, ErrorEvent(message));
    CloseMessage(es, "end_turn", true);
    ScanOne(EMPTY_SCAN, es, MessageDelta("end_turn"), false);
    ScanOne(EMPTY_SCAN, es + [MessageDelta("end_turn")], MessageStop, false);
  }

  /** An error before any tool block: an ordinary text block. */
  lemma FailBeforeTool(c: Builder, message: string)
    requires Opened(c.emitted) && ScanAll(c.emitted, false).Live? && ScanAll(c.emitted, false).open == map[]
    requires Numbered(c, ScanAll(c.emitted, false).seen)
    ensures var out := EmitError(c, message).emitted + [MessageDelta("end_turn")] + [MessageStop];
            && Contract(out, true) && Contract(out, false)
            && Opened(out) && StartIndices(out) == CountUp(c.next + 1)
  {
    ErrorTextScan(c, message);
    var d := EmitError(c, message);
    CloseMessage(d.emitted, "end_turn", false);
    AllowingErrorsIsWeaker(d.emitted);
    CloseMessage(d.emitted, "end_turn", true);
  }

  lemma FailResponseContract(b: Builder, message: string)
    requires Good(b)
    ensures var out := FailResponse(b, message).emitted;
            && Contract(out, true) && Opened(out)
            && StartIndices(out) == CountUp(FailResponse(b, message).next)
            && (Contract(out, false) <==> !HasEmittedToolBlock(b))
  {
    CloseAllScan(b);
    var c := CloseAllBlocks(b);
    if HasEmittedToolBlock(b) {
      var t :| t in b.tools && b.tools[t].started;
      assert Started(b, t) && b.tools[t].blockIndex in ScanAll(b.emitted, false).open;
      assert b.tools[t].blockIndex in ScanAll(c.emitted, false).seen;
      FailAfterTool(c, message);
    } else {
      FailBeforeTool(c, message);
    }
  }

  lemma ErrorTextScan(c: Builder, message: string)
    requires Opened(c.emitted) && ScanAll(c.emitted, false).Live? && ScanAll(c.emitted, false).open == map[]
    requires Numbered(c, ScanAll(c.emitted, false).seen)
    ensures var d := EmitError(c, message);
            && ScanAll(d.emitted, false) == Live(map[], ScanAll(c.emitted, false).seen + {c.next})
            && Opened(d.emitted) && StartIndices(d.emitted) == CountUp(d.next)
  {
    var e1, e2, e3 := BlockStart(c.next, TextBlock()), BlockDelta(c.next, Delta(TextDelta, message)), BlockStop(c.next);
    EmitScan(c.emitted, e1);
    EmitScan(c.emitted + [e1], e2);
    EmitScan(c.emitted + [e1] + [e2], e3);
    CountOneMore(c.next);
    assert map[c.next as int := Plain(Text)] - {c.next} == map[];
  }

  // --- pending arguments belong to started tools -----------------------------------------------------

  ghost predicate Tidy(c: Conn) {
    BuffersStarted(c) && TasksStarted(c.b)
  }

  lemma PutToolTidy(c: Conn, t: int, state: ToolCallState)
    requires Tidy(c) && Started(c.b, t) && state.started
    ensures Tidy(c.(b := PutTool(c.b, t, state)))
    ensures Started(PutTool(c.b, t, state), t)
  {
    var d := c.(b := PutTool(c.b, t, state));
    assert forall u :: Started(c.b, u) ==> Started(d.b, u);
  }

  lemma ToolDeltaTidy(c: Conn, t: int, json: string)
    requires Tidy(c) && Started(c.b, t)
    ensures Tidy(c.(b := EmitToolDelta(c.b, t, json)))
  {
    var state := c.b.tools[t].(contents := c.b.tools[t].contents + [json]);
    PutToolTidy(c, t, state);
    var d := c.(b := EmitToolDelta(c.b, t, json));
    assert forall u :: Started(d.b, u) <==> Started(PutTool(c.b, t, state), u);
  }

  lemma TaskArgTidy(env: Env, c: Conn, t: int, args: string)
    requires Tidy(c) && Started(c.b, t)
    ensures var r := BufferTaskArgs(c.b, t, args, env.parseTask);
            Tidy(c.(b := r.b)) && Started(r.b, t)
  {
    if !c.b.tools[t].taskArgsEmitted {
      var r := BufferTaskArgs(c.b, t, args, env.parseTask);
      PutToolTidy(c, t, r.b.tools[t]);
      assert r.b == PutTool(c.b, t, r.b.tools[t]);
    }
  }

  lemma EmitToolArgTidy(env: Env, c: Conn, t: int, args: string)
    requires Tidy(c) && Started(c.b, t)
    ensures Tidy(EmitToolArg(env, c, t, args))
  {
    if args != "" {
      var name := c.b.tools[t].name;
      if name == "Task" {
        TaskArgTidy(env, c, t, args);
        var r := BufferTaskArgs(c.b, t, args, env.parseTask);
        if r.json.Some? {
          ToolDeltaTidy(c.(b := r.b), t, r.json.value);
        }
      } else if env.aliased(name) {
        var buffered := BufferedText(c.aliasBuffers, t) + args;
        var restored := env.restore(name, buffered);
        if restored.Some? {
          ToolDeltaTidy(c.(aliasBuffers := PopBuffer(c.aliasBuffers, t)), t, restored.value);
        }
      } else {
        ToolDeltaTidy(c, t, args);
      }
    }
  }

  lemma RegisterTidy(c: Conn, t: int, tc: ToolDelta)
    requires Tidy(c)
    ensures Tidy(c.(b := Register(c.b, t, tc)))
  {
  }

  lemma StartToolTidy(c: Conn, t: int, tc: ToolDelta)
    requires Tidy(c) && !Started(c.b, t)
    ensures var b := StartTool(c.b, t, tc); Tidy(c.(b := b)) && Started(b, t)
  {
    hide Strip;
  }

  lemma StartIfNamedTidy(env: Env, c: Conn, t: int, tc: ToolDelta)
    requires Tidy(c)
    ensures Tidy(StartIfNamed(env, c, t, tc))
  {
    hide Tidy, StartTool, EmitToolArg, IsBlank;
    if !Started(c.b, t) && !IsBlank(NameOf(c.b, t)) {
      StartToolTidy(c, t, tc);
      var b := StartTool(c.b, t, tc);
      if b.tools[t].preStartArgs != "" {
        PutToolTidy(c.(b := b), t, b.tools[t].(preStartArgs := ""));
        EmitToolArgTidy(env, c.(b := PutTool(b, t, b.tools[t].(preStartArgs := ""))), t, b.tools[t].preStartArgs);
      }
    }
  }

  lemma HoldArgsTidy(c: Conn, t: int, args: string)
    requires Tidy(c) && !Started(c.b, t)
    ensures Tidy(c.(b := HoldArgs(c.b, t, args)))
  {
  }

  lemma ProcessToolCallTidy(env: Env, c0: Conn, tc: ToolDelta)
    requires Tidy(c0)
    ensures Tidy(ProcessToolCall(env, c0, tc))
  {
    var t := ResolveIndex(c0.b, tc.index);
    RegisterTidy(c0, t, tc);
    var c1 := c0.(b := Register(c0.b, t, tc), calls := c0.calls + [(t, tc)]);
    assert Tidy(c1);
    hide Tidy, Register, StartIfNamed, EmitToolArg, HoldArgs;
    StartIfNamedTidy(env, c1, t, tc);
    var c2 := StartIfNamed(env, c1, t, tc);
    if !c2.failed && tc.args != "" {
      if Started(c2.b, t) {
        EmitToolArgTidy(env, c2, t, tc.args);
      } else {
        HoldArgsTidy(c2, t, tc.args);
      }
    }
  }

  lemma {:induction false} ProcessToolCallsTidy(env: Env, c: Conn, tcs: seq<ToolDelta>)
    requires Tidy(c)
    ensures Tidy(ProcessToolCalls(env, c, tcs))
  {
    if tcs != [] {
      ProcessToolCallsTidy(env, c, tcs[..|tcs| - 1]);
      var d := ProcessToolCalls(env, c, tcs[..|tcs| - 1]);
      if !d.failed {
        ProcessToolCallTidy(env, d, tcs[|tcs| - 1]);
      }
    }
  }

  lemma {:induction false} HeuristicToolsTools(env: Env, b: Builder, tools: seq<HeuristicTool>)
    ensures EmitHeuristicTools(env, b, tools).tools == b.tools
    ensures EmitHeuristicTools(env, b, tools).order == b.order
  {
    if tools != [] {
      HeuristicToolsTools(env, b, tools[..|tools| - 1]);
    }
  }

  /** Same tool states, pending arguments and log of calls. */
  predicate SameTools(c: Conn, d: Conn) {
    && d.b.tools == c.b.tools && d.b.order == c.b.order && d.aliasBuffers == c.aliasBuffers
    && d.calls == c.calls && d.failed == c.failed
  }

  lemma {:induction false} EmitPartsTools(env: Env, c: Conn, parts: seq<ContentChunk>)
    ensures SameTools(c, EmitParts(env, c, parts))
  {
    if parts != [] {
      EmitPartsTools(env, c, parts[..|parts| - 1]);
      var d := EmitParts(env, c, parts[..|parts| - 1]);
      var part := parts[|parts| - 1];
      if !part.thinking {
        var (filtered, tools) := env.heuristic(d.fed + [part.content]);
        HeuristicToolsTools(env, if filtered == "" then d.b else EmitText(d.b, filtered), tools);
      }
    }
  }

  lemma NoteReasoningTools(env: Env, c: Conn, chunk: Chunk)
    ensures SameTools(c, NoteReasoning(env, c, chunk))
  {
  }

  lemma NoteContentTools(env: Env, c: Conn, chunk: Chunk)
    ensures SameTools(c, NoteContent(env, c, chunk))
  {
    var (parts, buffer, inside) := FeedLoop(c.thinkBuffer + chunk.content, c.inThink);
    EmitPartsTools(env, c.(thinkBuffer := buffer, inThink := inside), parts);
  }

  /** Text never touches tool states, pending arguments or the log of calls. */
  lemma BeforeToolsTools(env: Env, c: Conn, chunk: Chunk)
    ensures SameTools(c, BeforeTools(env, c, chunk))
  {
    var d := NoteReasoning(env, c, chunk);
    NoteReasoningTools(env, c, chunk);
    NoteContentTools(env, d, chunk);
    var e := NoteContent(env, d, chunk);
    assert SameTools(d, e);
    assert SameTools(e, e.(b := CloseContentBlocks(e.b)));
  }

  lemma {:induction false} ProcessChunksTidy(env: Env, chunks: seq<Chunk>)
    ensures Tidy(ProcessChunks(env, chunks))
  {
    if chunks != [] {
      ProcessChunksTidy(env, chunks[..|chunks| - 1]);
      var c := ProcessChunks(env, chunks[..|chunks| - 1]);
      var chunk := chunks[|chunks| - 1];
      if !c.failed && chunk.hasDelta {
        BeforeToolsTools(env, c, chunk);
        ProcessToolCallsTidy(env, BeforeTools(env, c, chunk), chunk.tools);
      }
    }
  }

  // --- the theorem -------------------------------------------------------------------------------------

  lemma CompleteGood(env: Env, c: Conn)
    requires Good(c.b)
    ensures Good(Complete(env, c).b) && Complete(env, c).b.next > 0
  {
    FlushThinkGood(env, c);
    var c1 := FlushThink(env, c);
    var tools := env.heuristicFlush(c1.fed);
    HeuristicToolsGood(env, c1.b, tools);
    EnsureContentGood(EmitHeuristicTools(env, c1.b, tools));
  }

  lemma FlushThinkTools(env: Env, c: Conn)
    ensures SameTools(c, FlushThink(env, c))
  {
  }

  lemma EnsureContentTools(b: Builder)
    ensures EnsureContent(b).tools == b.tools && EnsureContent(b).order == b.order
  {
  }

  lemma CompleteTools(env: Env, c: Conn)
    ensures SameTools(c, Complete(env, c))
  {
    FlushThinkTools(env, c);
    hide FlushThink, EmitHeuristicTools, EnsureContent;
    var c1 := FlushThink(env, c);
    var tools := env.heuristicFlush(c1.fed);
    HeuristicToolsTools(env, c1.b, tools);
    EnsureContentTools(EmitHeuristicTools(env, c1.b, tools));
  }

  lemma DrainGood(env: Env, c: Conn)
    requires Good(c.b) && Tidy(c)
    ensures Good(Drain(env, c).b) && Drain(env, c).b.next > 0
  {
    CompleteGood(env, c);
    CompleteTools(env, c);
    var d := Complete(env, c);
    FlushAliasesGood(env, d, d.aliasBuffers.keys);
    FlushAliasesTasks(env, d, d.aliasBuffers.keys);
    var e := FlushAliases(env, d, d.aliasBuffers.keys);
    FlushTasksGood(e.b, e.b.order, env.parseTask);
  }

  lemma {:induction false} FlushAliasesTasks(env: Env, c: Conn, keys: seq<int>)
    requires TasksStarted(c.b)
    ensures TasksStarted(FlushAliases(env, c, keys).b)
  {
    if keys != [] {
      FlushAliasesTasks(env, c, keys[..|keys| - 1]);
    }
  }

  lemma FinishResponseContract(env: Env, c: Conn)
    requires Good(c.b) && Tidy(c)
    ensures var out := FinishResponse(env, c).emitted;
            && Contract(out, false) && Opened(out)
            && StartIndices(out) == CountUp(FinishResponse(env, c).next)
  {
    DrainGood(env, c);
    var d := Drain(env, c).b;
    CloseAllScan(d);
    assert 0 in ScanAll(CloseAllBlocks(d).emitted, false).seen;
    CloseMessage(CloseAllBlocks(d).emitted, StopReason(c.finishReason), false);
  }

  lemma FailFaithful(b: Builder, message: string)
    requires Good(b)
    ensures Faithful(FailResponse(b, message)) && FailResponse(b, message).tools == b.tools
  {
    CloseAllScan(b);
    var c := CloseAllBlocks(b);
    assert forall t | Started(c, t) :: Started(b, t) && c.tools[t].blockIndex in ScanAll(b.emitted, false).seen;
    var d := if HasEmittedToolBlock(c) then Emit(c, ErrorEvent(message)) else EmitError(c, message);
    if HasEmittedToolBlock(c) {
      EmitFaithful(c, d, ErrorEvent(message));
    } else {
      var e1, e2 := BlockStart(c.next, TextBlock()), BlockDelta(c.next, Delta(TextDelta, message));
      EmitFaithful(c, Emit(c, e1), e1);
      EmitFaithful(Emit(c, e1), Emit(Emit(c, e1), e2), e2);
      EmitFaithful(Emit(Emit(c, e1), e2), d, BlockStop(c.next));
    }
    EmitFaithful(d, Emit(d, MessageDelta("end_turn")), MessageDelta("end_turn"));
    EmitFaithful(Emit(d, MessageDelta("end_turn")), FailResponse(b, message), MessageStop);
  }

  lemma FinishFaithful(env: Env, c: Conn)
    requires Good(c.b) && Tidy(c)
    ensures Faithful(FinishResponse(env, c)) && FinishResponse(env, c).tools == Drain(env, c).b.tools
  {
    DrainGood(env, c);
    CloseAllScan(Drain(env, c).b);
    var d := CloseAllBlocks(Drain(env, c).b);
    var e := MessageDelta(StopReason(c.finishReason));
    EmitFaithful(d, Emit(d, e), e);
    EmitFaithful(Emit(d, e), FinishResponse(env, c), MessageStop);
  }

  /** In every response, the deltas of a started tool's block are the pieces
      recorded for that tool, and nothing else was sent to the block. */
  lemma ResponseIsFaithful(env: Env, chunks: seq<Chunk>, broken: bool, message: string)
    ensures Faithful(StreamResponse(env, chunks, broken, message))
  {
    ProcessChunksGood(env, chunks);
    ProcessChunksTidy(env, chunks);
    var c := ProcessChunks(env, chunks);
    if c.failed || broken {
      FailFaithful(c.b, message);
    } else {
      FinishFaithful(env, c);
    }
  }

  /** For every upstream, ended normally or broken anywhere, and any heuristic
      parser: the response opens with message_start, satisfies the contract and
      numbers its blocks 0, 1, 2, ... in order.  It satisfies the strict
      contract too, except exactly when it failed after a tool block started. */
  lemma ResponseSatisfiesContract(env: Env, chunks: seq<Chunk>, broken: bool, message: string)
    ensures var r := StreamResponse(env, chunks, broken, message);
            var c := ProcessChunks(env, chunks);
            && Contract(r.emitted, true)
            && r.emitted[0] == MessageStart
            && StartIndices(r.emitted) == CountUp(r.next)
            && (Contract(r.emitted, false) <==> !((c.failed || broken) && HasEmittedToolBlock(c.b)))
  {
    ProcessChunksGood(env, chunks);
    ProcessChunksTidy(env, chunks);
    var c := ProcessChunks(env, chunks);
    if c.failed || broken {
      FailResponseContract(c.b, message);
    } else {
      FinishResponseContract(env, c);
      ContractWithErrorsIsWeaker(FinishResponse(env, c).emitted);
    }
  }

  const NAMED_CALL: ToolDelta := ToolDelta(0, None, Some("f"), "")

  const NAMED_CHUNK: Chunk := Chunk(true, "", "", "", [NAMED_CALL])

  lemma NamedCallStarts(env: Env, c: Conn)
    requires c.b.tools == map[] && !c.failed
    ensures HasEmittedToolBlock(ProcessToolCall(env, c, NAMED_CALL).b)
  {
    assert "f"[0] == 'f' && !IsSpace('f') && !IsBlank("f");
    var t := ResolveIndex(c.b, NAMED_CALL.index);
    var c1 := c.(b := Register(c.b, t, NAMED_CALL), calls := c.calls + [(t, NAMED_CALL)]);
    assert NameOf(c1.b, t) == "f";
    assert StartIfNamed(env, c1, t, NAMED_CALL).b.tools[t].started;
  }

  /** A response that breaks off after a tool block has started is the failing
      case of the strict contract. */
  lemma BrokenToolFailsStrictContract(env: Env, message: string)
    ensures var es := StreamResponse(env, [NAMED_CHUNK], true, message).emitted;
            Contract(es, true) && !Contract(es, false)
  {
    ResponseSatisfiesContract(env, [NAMED_CHUNK], true, message);
    hide StreamResponse, BeforeTools, ProcessToolCall;
    var d := BeforeTools(env, NEW_CONN, NAMED_CHUNK);
    BeforeToolsTools(env, NEW_CONN, NAMED_CHUNK);
    NamedCallStarts(env, d);
    assert [NAMED_CHUNK][..0] == [] && [NAMED_CALL][..0] == [];
    assert ProcessToolCalls(env, d, [NAMED_CALL]) == ProcessToolCall(env, d, NAMED_CALL);
    assert ProcessChunk(env, NEW_CONN, NAMED_CHUNK) == ProcessToolCall(env, d, NAMED_CALL);
    assert ProcessChunks(env, [NAMED_CHUNK]) == ProcessChunk(env, NEW_CONN, NAMED_CHUNK);
  }

  lemma ContractWithErrorsIsWeaker(es: seq<Event>)
    requires Contract(es, false)
    ensures Contract(es, true)
  {
    AllowingErrorsIsWeaker(es);
  }
}
