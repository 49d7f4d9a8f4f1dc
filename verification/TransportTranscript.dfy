/** What a response says, in order: every character of text and of thinking, and
    every tool it announces, as the chunks bring them about. */
module TransportTranscript {
  import opened Common
  import opened StreamContract
  import opened SseBuilding
  import opened ThinkTags
  import opened OpenAiTransport
  import opened TransportContract
  import opened TransportTools
  import opened TransportBlocks

  datatype Utterance = Word(c: char, thinking: bool) | Tool(block: Block)

  function Say(s: string, thinking: bool): seq<Utterance> {
    seq(|s|, i requires 0 <= i < |s| => Word(s[i], thinking))
  }

  /** What one event says. */
  function SaidBy(e: Event): seq<Utterance> {
    match e
    case BlockStart(_, block) =>
      if block.kind.ToolUse? then [Tool(block)] else if block.kind.Text? then Say(block.text, false) else []
    case BlockDelta(_, delta) =>
      if delta.kind.TextDelta? then Say(delta.payload, false)
      else if delta.kind.ThinkingDelta? then Say(delta.payload, true)
      else []
    case _ => []
  }

  function Said(es: seq<Event>): seq<Utterance> {
    Collect(SaidBy, es)
  }

  /** The characters of one kind. */
  function Chars(said: seq<Utterance>, thinking: bool): string {
    if said == [] then ""
    else
      var last := said[|said| - 1];
      Chars(said[..|said| - 1], thinking) + if last.Word? && last.thinking == thinking then [last.c] else ""
  }

  lemma {:induction false} CharsAppend(a: seq<Utterance>, b: seq<Utterance>, thinking: bool)
    ensures Chars(a + b, thinking) == Chars(a, thinking) + Chars(b, thinking)
  {
    if b == [] {
      assert a + b == a;
    } else {
      var front, last := b[..|b| - 1], b[|b| - 1];
      assert (a + b)[..|a + b| - 1] == a + front;
      CharsAppend(a, front, thinking);
      var one := if last.Word? && last.thinking == thinking then [last.c] else "";
      assert Chars(a, thinking) + Chars(front, thinking) + one == Chars(a, thinking) + (Chars(front, thinking) + one);
    }
  }

  lemma {:induction false} CharsOfSay(s: string, kind: bool, thinking: bool)
    ensures Chars(Say(s, kind), thinking) == if kind == thinking then s else ""
  {
    if s != "" {
      CharsOfSay(s[..|s| - 1], kind, thinking);
      assert Say(s, kind)[..|s| - 1] == Say(s[..|s| - 1], kind);
      assert s == s[..|s| - 1] + [s[|s| - 1]];
    }
  }

  lemma CharsOfTool(block: Block, thinking: bool)
    ensures Chars([Tool(block)], thinking) == ""
  {
    assert [Tool(block)][..0] == [];
  }

  /** Text and thinking of a stream are the characters it says. */
  lemma {:induction false} ContentIsSaid(es: seq<Event>)
    ensures TextContent(es) == Chars(Said(es), false) && ThinkingContent(es) == Chars(Said(es), true)
  {
    if es != [] {
      var front, e := es[..|es| - 1], es[|es| - 1];
      ContentIsSaid(front);
      CharsAppend(Said(front), SaidBy(e), false);
      CharsAppend(Said(front), SaidBy(e), true);
      EventIsSaid(e);
      hide SaidBy, TextOf, ThinkingOf, Chars;
      assert Said(es) == Said(front) + SaidBy(e);
    }
  }

  lemma EventIsSaid(e: Event)
    ensures Chars(SaidBy(e), false) == TextOf(e) && Chars(SaidBy(e), true) == ThinkingOf(e)
  {
    match e {
      case BlockStart(_, block) =>
        CharsOfTool(block, false);
        CharsOfTool(block, true);
        CharsOfSay(block.text, false, false);
        CharsOfSay(block.text, false, true);
      case BlockDelta(_, delta) =>
        CharsOfSay(delta.payload, delta.kind.ThinkingDelta?, false);
        CharsOfSay(delta.payload, delta.kind.ThinkingDelta?, true);
      case _ =>
    }
  }

  // --- what a builder has said -------------------------------------------------------------

  /** A builder that has said this and nothing else; a block of text or thinking
      has been started exactly if there is some. */
  ghost predicate Spoken(b: Builder, said: seq<Utterance>) {
    && Said(b.emitted) == said
    && b.accumulatedText == Chars(said, false) && b.accumulatedReasoning == Chars(said, true)
    && (b.textIndex == -1 <==> b.accumulatedText == "") && (b.thinkingIndex == -1 <==> b.accumulatedReasoning == "")
    && (b.textStarted ==> b.textIndex != -1) && (b.thinkingStarted ==> b.thinkingIndex != -1)
  }

  predicate SameWords(b: Builder, c: Builder) {
    && c.accumulatedText == b.accumulatedText && c.accumulatedReasoning == b.accumulatedReasoning
    && c.textIndex == b.textIndex && c.thinkingIndex == b.thinkingIndex
    && (c.textStarted ==> b.textStarted) && (c.thinkingStarted ==> b.thinkingStarted)
  }

  lemma EmitSays(es: seq<Event>, e: Event)
    ensures Said(es + [e]) == Said(es) + SaidBy(e)
  {
    CollectOne(SaidBy, es, e);
  }

  lemma SilentSpoken(b: Builder, c: Builder, e: Event, said: seq<Utterance>)
    requires Spoken(b, said) && c.emitted == b.emitted + [e] && SaidBy(e) == [] && SameWords(b, c)
    ensures Spoken(c, said)
  {
    EmitSays(b.emitted, e);
    assert said + [] == said;
  }

  lemma ToolSpoken(b: Builder, c: Builder, i: int, block: Block, said: seq<Utterance>)
    requires Spoken(b, said) && c.emitted == b.emitted + [BlockStart(i, block)] && block.kind == ToolUse
             && SameWords(b, c)
    ensures Spoken(c, said + [Tool(block)])
  {
    EmitSays(b.emitted, BlockStart(i, block));
    CharsAppend(said, [Tool(block)], false);
    CharsAppend(said, [Tool(block)], true);
    CharsOfTool(block, false);
    CharsOfTool(block, true);
    assert Chars(said, false) + "" == Chars(said, false) && Chars(said, true) + "" == Chars(said, true);
  }

  lemma SameSpoken(b: Builder, c: Builder, said: seq<Utterance>)
    requires Spoken(b, said) && SameWords(b, c) && c.emitted == b.emitted
    ensures Spoken(c, said)
  {
  }

  lemma CloseSpoken(b: Builder, said: seq<Utterance>)
    requires Spoken(b, said)
    ensures Spoken(CloseContentBlocks(b), said)
    ensures b.thinkingStarted ==> Spoken(StopThinkingBlock(b), said)
    ensures b.textStarted ==> Spoken(StopTextBlock(b), said)
  {
    hide Spoken;
    if b.thinkingStarted {
      SilentSpoken(b, StopThinkingBlock(b), BlockStop(b.thinkingIndex), said);
    }
    if b.textStarted {
      SilentSpoken(b, StopTextBlock(b), BlockStop(b.textIndex), said);
    }
    var c := if b.thinkingStarted then StopThinkingBlock(b) else b;
    if c.textStarted {
      SilentSpoken(c, StopTextBlock(c), BlockStop(c.textIndex), said);
    }
  }

  lemma SayMore(said: seq<Utterance>, content: string, thinking: bool)
    ensures Chars(said + Say(content, thinking), thinking) == Chars(said, thinking) + content
    ensures Chars(said + Say(content, thinking), !thinking) == Chars(said, !thinking)
  {
    CharsAppend(said, Say(content, thinking), thinking);
    CharsAppend(said, Say(content, thinking), !thinking);
    CharsOfSay(content, thinking, thinking);
    CharsOfSay(content, thinking, !thinking);
    assert Chars(said, !thinking) + "" == Chars(said, !thinking);
  }

  lemma TextDeltaSpoken(b: Builder, content: string, said: seq<Utterance>)
    requires Spoken(b, said) && b.textStarted && content != ""
    ensures Spoken(EmitTextDelta(b, content), said + Say(content, false))
  {
    EmitSays(b.emitted, BlockDelta(b.textIndex, Delta(TextDelta, content)));
    SayMore(said, content, false);
    hide Say, Chars;
  }

  /** A text block that has just been started and waits for its first text. */
  lemma FirstTextSpoken(b: Builder, content: string, said: seq<Utterance>)
    requires Spoken(b, said) && content != ""
    ensures Spoken(EmitTextDelta(StartTextBlock(b), content), said + Say(content, false))
  {
    var start, delta := BlockStart(b.next, TextBlock()), BlockDelta(b.next, Delta(TextDelta, content));
    EmitSays(b.emitted, start);
    EmitSays(b.emitted + [start], delta);
    SayMore(said, content, false);
    assert Say("", false) == [] && said + [] == said;
    hide Say, Chars;
  }

  lemma EmitTextSpoken(b: Builder, content: string, said: seq<Utterance>)
    requires Spoken(b, said) && content != ""
    ensures Spoken(EmitText(b, content), said + Say(content, false))
  {
    CloseSpoken(b, said);
    hide Spoken;
    var c := if b.thinkingStarted then StopThinkingBlock(b) else b;
    if c.textStarted {
      TextDeltaSpoken(c, content, said);
    } else {
      FirstTextSpoken(c, content, said);
    }
  }

  lemma ThinkingDeltaSpoken(b: Builder, content: string, said: seq<Utterance>)
    requires Spoken(b, said) && b.thinkingStarted && content != ""
    ensures Spoken(EmitThinkingDelta(b, content), said + Say(content, true))
  {
    EmitSays(b.emitted, BlockDelta(b.thinkingIndex, Delta(ThinkingDelta, content)));
    SayMore(said, content, true);
    hide Say, Chars;
  }

  lemma FirstThinkingSpoken(b: Builder, content: string, said: seq<Utterance>)
    requires Spoken(b, said) && content != ""
    ensures Spoken(EmitThinkingDelta(StartThinkingBlock(b), content), said + Say(content, true))
  {
    var start, delta := BlockStart(b.next, ThinkingBlock()), BlockDelta(b.next, Delta(ThinkingDelta, content));
    EmitSays(b.emitted, start);
    EmitSays(b.emitted + [start], delta);
    SayMore(said, content, true);
    assert said + [] == said;
    hide Say, Chars;
  }

  lemma EmitThinkingSpoken(b: Builder, content: string, said: seq<Utterance>)
    requires Spoken(b, said) && content != ""
    ensures Spoken(EmitThinking(b, content), said + Say(content, true))
  {
    CloseSpoken(b, said);
    hide Spoken;
    var c := if b.textStarted then StopTextBlock(b) else b;
    if c.thinkingStarted {
      ThinkingDeltaSpoken(c, content, said);
    } else {
      FirstThinkingSpoken(c, content, said);
    }
  }

  // --- tools the heuristic parser finds ---------------------------------------------------------

  /** The tools found, announced one by one. */
  function Found(tools: seq<HeuristicTool>): seq<Utterance> {
    if tools == [] then []
    else
      var last := tools[|tools| - 1];
      Found(tools[..|tools| - 1]) + [Tool(Block(ToolUse, "", Given(last.id), last.name, "{}"))]
  }

  lemma HeuristicToolSpoken(env: Env, b: Builder, tool: HeuristicTool, said: seq<Utterance>)
    requires Spoken(b, said)
    ensures Spoken(EmitHeuristicTool(env, b, tool), said + [Tool(Block(ToolUse, "", Given(tool.id), tool.name, "{}"))])
  {
    CloseSpoken(b, said);
    ClosedContent(b);
    CloseTwice(env, b, tool);
    hide Spoken, CloseContentBlocks;
    var c := CloseContentBlocks(b);
    OneHeuristic(env, c, tool);
    var events := HeuristicEvents(env, [tool], c.next);
    var block := Block(ToolUse, "", Given(tool.id), tool.name, "{}");
    assert [tool][1..] == [] && HeuristicEvents(env, [], c.next + 1) == [];
    hide EmitHeuristicTool;
    var c1 := c.(next := c.next + 1, emitted := c.emitted + [events[0]]);
    var c2 := c1.(emitted := c1.emitted + [events[1]]);
    ToolSpoken(c, c1, c.next, block, said);
    SilentSpoken(c1, c2, events[1], said + [Tool(block)]);
    SilentSpoken(c2, c2.(emitted := c2.emitted + [events[2]]), events[2], said + [Tool(block)]);
    assert c2.(emitted := c2.emitted + [events[2]]) == EmitHeuristicTool(env, c, tool);
  }

  lemma {:induction false} HeuristicToolsSpoken(env: Env, b: Builder, tools: seq<HeuristicTool>, said: seq<Utterance>)
    requires Spoken(b, said)
    ensures Spoken(EmitHeuristicTools(env, b, tools), said + Found(tools))
  {
    hide Spoken, EmitHeuristicTool;
    if tools == [] {
      assert said + [] == said;
    } else {
      var front, last := tools[..|tools| - 1], tools[|tools| - 1];
      HeuristicToolsSpoken(env, b, front, said);
      HeuristicToolSpoken(env, EmitHeuristicTools(env, b, front), last, said + Found(front));
      assert said + Found(front) + [Tool(Block(ToolUse, "", Given(last.id), last.name, "{}"))] == said + Found(tools);
    }
  }

  // --- streamed tools -----------------------------------------------------------------------------

  lemma ToolDeltaSpoken(b: Builder, t: int, json: string, said: seq<Utterance>)
    requires Spoken(b, said) && t in b.tools
    ensures Spoken(EmitToolDelta(b, t, json), said)
  {
    hide Spoken;
    SilentSpoken(b, EmitToolDelta(b, t, json), BlockDelta(b.tools[t].blockIndex, Delta(InputJsonDelta, json)), said);
  }

  lemma PutToolSpoken(b: Builder, t: int, state: ToolCallState, said: seq<Utterance>)
    requires Spoken(b, said)
    ensures Spoken(PutTool(b, t, state), said)
  {
    hide Spoken;
    SameSpoken(b, PutTool(b, t, state), said);
  }

  lemma EmitToolArgSpoken(env: Env, c: Conn, t: int, args: string, said: seq<Utterance>)
    requires Spoken(c.b, said)
    ensures Spoken(EmitToolArg(env, c, t, args).b, said)
  {
    hide Spoken;
    if args != "" && t in c.b.tools {
      var name := c.b.tools[t].name;
      if name == "Task" {
        var r := BufferTaskArgs(c.b, t, args, env.parseTask);
        SameSpoken(c.b, r.b, said);
        if r.json.Some? && t in r.b.tools {
          ToolDeltaSpoken(r.b, t, r.json.value, said);
        }
      } else if env.aliased(name) {
        var restored := env.restore(name, BufferedText(c.aliasBuffers, t) + args);
        if restored.Some? {
          ToolDeltaSpoken(c.b, t, restored.value, said);
        }
      } else {
        ToolDeltaSpoken(c.b, t, args, said);
      }
    }
  }

  /** What a delta of tool `t` makes the response announce. */
  function Opening(log: seq<(int, ToolDelta)>, t: int, tc: ToolDelta): seq<Utterance> {
    var own := OwnDeltas(log, t);
    if Announcement(t, own).None? && Announcement(t, own + [tc]).Some? then [Tool(Announcement(t, own + [tc]).value)]
        else []
  }

  lemma RegisterSpoken(b: Builder, t: int, tc: ToolDelta, said: seq<Utterance>)
    requires Spoken(b, said)
    ensures Spoken(Register(b, t, tc), said)
  {
    hide Spoken, MergeName;
    SameSpoken(b, Register(b, t, tc), said);
  }

  lemma StartToolSpoken(b: Builder, t: int, tc: ToolDelta, block: Block, said: seq<Utterance>)
    requires Spoken(b, said) && block.kind == ToolUse
    requires StartTool(b, t, tc).emitted == b.emitted + [BlockStart(b.next, block)]
    ensures Spoken(StartTool(b, t, tc), said + [Tool(block)])
  {
    assert SameWords(b, StartTool(b, t, tc));
    hide Spoken, StartTool;
    ToolSpoken(b, StartTool(b, t, tc), b.next, block, said);
  }

  lemma StartingSpoken(b: Builder, t: int, tc: ToolDelta, own: seq<ToolDelta>, said: seq<Utterance>)
    requires Spoken(b, said) && Presented(b, t, own)
    ensures var added := if Announcement(t, own).None? && Announcement(t, own + [tc]).Some?
                          then [Tool(Announcement(t, own + [tc]).value)] else [];
            Spoken(Starting(b, t, tc), said + added)
  {
    hide Spoken, FaceOf, MergedName, LastId, Announcement, StartsAt, Strip, IsBlank, Register, StartTool, Started,
      NameOf,
      MergeName;
    var c := Register(b, t, tc);
    RegisterSpoken(b, t, tc, said);
    RegisterFaces(b, t, tc);
    OwnSnoc(t, own, tc);
    if tc.name.Some? {
      MergesAlike(MergedName(own), tc.name.value);
    }
    FaceStarted(c, t);
    StartToolFaces(c, t, tc);
    assert said + [] == said;
    if !Started(c, t) && !IsBlank(NameOf(c, t)) {
      StartToolSpoken(c, t, tc, Announcement(t, own + [tc]).value, said);
    }
  }

  lemma StartIfNamedSpoken(env: Env, c: Conn, t: int, tc: ToolDelta, said: seq<Utterance>)
    requires !Started(c.b, t) && !IsBlank(NameOf(c.b, t)) && Spoken(StartTool(c.b, t, tc), said)
    ensures Spoken(StartIfNamed(env, c, t, tc).b, said)
  {
    hide Spoken, IsBlank, EmitToolArg, StartTool;
    var b := StartTool(c.b, t, tc);
    if t in b.tools && b.tools[t].preStartArgs != "" {
      PutToolSpoken(b, t, b.tools[t].(preStartArgs := ""), said);
      EmitToolArgSpoken(env, c.(b := PutTool(b, t, b.tools[t].(preStartArgs := ""))), t, b.tools[t].preStartArgs, said);
    }
  }

  lemma HoldArgsSpoken(b: Builder, t: int, args: string, said: seq<Utterance>)
    requires Spoken(b, said)
    ensures Spoken(HoldArgs(b, t, args), said)
  {
    hide Spoken;
    SameSpoken(b, HoldArgs(b, t, args), said);
  }

  lemma AfterStarting(env: Env, c: Conn, tc: ToolDelta, said: seq<Utterance>)
    requires Spoken(Starting(c.b, ResolveIndex(c.b, tc.index), tc), said)
    ensures Spoken(ProcessToolCall(env, c, tc).b, said)
  {
    hide Spoken, Register, EmitToolArg, HoldArgs, StartTool, IsBlank, Started, NameOf;
    var t := ResolveIndex(c.b, tc.index);
    var c1 := c.(b := Register(c.b, t, tc), calls := c.calls + [(t, tc)]);
    if !Started(c1.b, t) && !IsBlank(NameOf(c1.b, t)) {
      StartIfNamedSpoken(env, c1, t, tc, said);
    }
    var c2 := StartIfNamed(env, c1, t, tc);
    assert Spoken(c2.b, said);
    hide StartIfNamed, Starting;
    if !c2.failed && tc.args != "" {
      if Started(c2.b, t) {
        EmitToolArgSpoken(env, c2, t, tc.args, said);
      } else {
        HoldArgsSpoken(c2.b, t, tc.args, said);
      }
    }
  }

  lemma CallSpoken(env: Env, c: Conn, tc: ToolDelta, said: seq<Utterance>)
    requires Spoken(c.b, said) && Presented(c.b, ResolveIndex(c.b, tc.index),
             OwnDeltas(c.calls, ResolveIndex(c.b, tc.index)))
    ensures Spoken(ProcessToolCall(env, c, tc).b, said + Opening(c.calls, ResolveIndex(c.b, tc.index), tc))
  {
    hide Spoken, Presented, ProcessToolCall, OwnDeltas, Announcement, Starting;
    var t := ResolveIndex(c.b, tc.index);
    StartingSpoken(c.b, t, tc, OwnDeltas(c.calls, t), said);
    AfterStarting(env, c, tc, said + Opening(c.calls, t, tc));
  }

  // --- the log of tool deltas, from the chunks alone -----------------------------------------------

  /** The delta says something of its tool. */
  predicate Telling(tc: ToolDelta) {
    tc.name.Some? || (tc.id.Some? && tc.id.value != "") || tc.args != ""
  }

  /** The tools of which something has been said. */
  function Known(log: seq<(int, ToolDelta)>): set<int> {
    set k | 0 <= k < |log| && Telling(log[k].1) :: log[k].0
  }

  /** A negative index stands for a tool of its own. */
  function Entry(log: seq<(int, ToolDelta)>, tc: ToolDelta): (int, ToolDelta) {
    (if tc.index < 0 then |Known(log)| else tc.index, tc)
  }

  function Logged(log: seq<(int, ToolDelta)>, tcs: seq<ToolDelta>): seq<(int, ToolDelta)> {
    if tcs == [] then log
    else
      var before := Logged(log, tcs[..|tcs| - 1]);
      before + [Entry(before, tcs[|tcs| - 1])]
  }

  function LogOf(chunks: seq<Chunk>): seq<(int, ToolDelta)> {
    if chunks == [] then []
    else
      var before, last := LogOf(chunks[..|chunks| - 1]), chunks[|chunks| - 1];
      if last.hasDelta then Logged(before, last.tools) else before
  }

  lemma KnownOne(log: seq<(int, ToolDelta)>, entry: (int, ToolDelta))
    ensures Known(log + [entry]) == Known(log) + if Telling(entry.1) then {entry.0} else {}
  {
    var more := log + [entry];
    assert more[|log|] == entry && forall k | 0 <= k < |log| :: more[k] == log[k];
    forall t
      ensures t in Known(more) <==> t in Known(log) || (Telling(entry.1) && t == entry.0)
    {
      if t in Known(log) {
        var k :| 0 <= k < |log| && Telling(log[k].1) && log[k].0 == t;
        assert more[k].0 == t;
      }
    }
  }

  lemma PutKeys(b: Builder, t: int, state: ToolCallState)
    ensures PutTool(b, t, state).tools.Keys == b.tools.Keys + {t}
  {
  }

  lemma DeltaKeepsKeys(b: Builder, t: int, json: string)
    requires t in b.tools
    ensures EmitToolDelta(b, t, json).tools.Keys == b.tools.Keys
  {
    PutKeys(b, t, b.tools[t].(contents := b.tools[t].contents + [json]));
    hide PutTool;
  }

  lemma TaskKeepsKeys(b: Builder, t: int, args: string, parse: string -> TaskParse)
    requires t in b.tools
    ensures BufferTaskArgs(b, t, args, parse).b.tools.Keys == b.tools.Keys
  {
    var whole := b.tools[t].taskArgBuffer + args;
    PutKeys(b, t, b.tools[t].(taskArgBuffer := whole));
    PutKeys(b, t, b.tools[t].(taskArgBuffer := "", taskArgsEmitted := true));
    hide PutTool;
  }

  lemma HoldKeys(b: Builder, t: int, args: string)
    ensures HoldArgs(b, t, args).tools.Keys == b.tools.Keys + {t}
  {
    PutKeys(b, t, NEW_TOOL);
    var c := EnsureToolState(b, t);
    PutKeys(c, t, c.tools[t].(preStartArgs := c.tools[t].preStartArgs + args));
    hide PutTool;
  }

  lemma ArgKeepsKeys(env: Env, c: Conn, t: int, args: string)
    ensures EmitToolArg(env, c, t, args).b.tools.Keys == c.b.tools.Keys
  {
    hide BufferTaskArgs, EmitToolDelta;
    if args != "" && t in c.b.tools {
      var name := c.b.tools[t].name;
      if name == "Task" {
        TaskKeepsKeys(c.b, t, args, env.parseTask);
        var r := BufferTaskArgs(c.b, t, args, env.parseTask);
        if r.json.Some? && t in r.b.tools {
          DeltaKeepsKeys(r.b, t, r.json.value);
        }
      } else if env.aliased(name) {
        var restored := env.restore(name, BufferedText(c.aliasBuffers, t) + args);
        if restored.Some? {
          DeltaKeepsKeys(c.b, t, restored.value);
        }
      } else {
        DeltaKeepsKeys(c.b, t, args);
      }
    }
  }

  lemma RegisterKeys(b: Builder, t: int, tc: ToolDelta)
    ensures Register(b, t, tc).tools.Keys ==
              b.tools.Keys + if tc.name.Some? || (tc.id.Some? && tc.id.value != "") then {t} else {}
  {
    hide MergeName;
  }

  lemma StartKeepsKeys(env: Env, c: Conn, t: int, tc: ToolDelta)
    ensures StartIfNamed(env, c, t, tc).b.tools.Keys == c.b.tools.Keys
  {
    BlankIsUnnamed();
    hide EmitToolArg, IsBlank, Strip;
    if !Started(c.b, t) && !IsBlank(NameOf(c.b, t)) {
      var b := StartTool(c.b, t, tc);
      assert b.tools.Keys == c.b.tools.Keys;
      ArgKeepsKeys(env, c.(b := PutTool(b, t, b.tools[t].(preStartArgs := ""))), t, b.tools[t].preStartArgs);
    }
  }

  lemma FailsOnlyStarted(env: Env, c: Conn, t: int, tc: ToolDelta)
    requires !c.failed && StartIfNamed(env, c, t, tc).failed
    ensures t in c.b.tools
  {
    BlankIsUnnamed();
  }

  lemma StartedKey(b: Builder, t: int)
    requires Started(b, t)
    ensures t in b.tools.Keys
  {
  }

  lemma CallKeys(env: Env, c: Conn, tc: ToolDelta)
    requires !c.failed
    ensures var t := ResolveIndex(c.b, tc.index);
            ProcessToolCall(env, c, tc).b.tools.Keys == c.b.tools.Keys + if Telling(tc) then {t} else {}
  {
    hide Register, StartIfNamed, EmitToolArg, HoldArgs, Started;
    var t := ResolveIndex(c.b, tc.index);
    var c1 := c.(b := Register(c.b, t, tc), calls := c.calls + [(t, tc)]);
    RegisterKeys(c.b, t, tc);
    StartKeepsKeys(env, c1, t, tc);
    var c2 := StartIfNamed(env, c1, t, tc);
    if c2.failed {
      FailsOnlyStarted(env, c1, t, tc);
    } else if Started(c2.b, t) {
      StartedKey(c2.b, t);
      ArgKeepsKeys(env, c2, t, tc.args);
    } else {
      HoldKeys(c2.b, t, tc.args);
    }
  }

  /** What the tool deltas of a chunk announce. */
  function Openings(log: seq<(int, ToolDelta)>, tcs: seq<ToolDelta>): seq<Utterance> {
    if tcs == [] then []
    else
      var before, entry := Logged(log, tcs[..|tcs| - 1]), Entry(Logged(log, tcs[..|tcs| - 1]), tcs[|tcs| - 1]);
      Openings(log, tcs[..|tcs| - 1]) + Opening(before, entry.0, entry.1)
  }

  ghost predicate AllPresented(c: Conn) {
    forall t :: Presented(c.b, t, OwnDeltas(c.calls, t))
  }

  lemma {:induction false} CallsSpoken(env: Env, c: Conn, tcs: seq<ToolDelta>, said: seq<Utterance>)
    requires Good(c.b) && AllPresented(c) && Spoken(c.b, said) && c.b.tools.Keys == Known(c.calls)
    requires !ProcessToolCalls(env, c, tcs).failed
    ensures var d := ProcessToolCalls(env, c, tcs);
            && Good(d.b) && AllPresented(d) && Spoken(d.b, said + Openings(c.calls, tcs))
            && d.b.tools.Keys == Known(d.calls) && d.calls == Logged(c.calls, tcs) && SameParser(c, d) && d.fed == c.fed
  {
    hide Good, Spoken, Opening, Known, Presented, OwnDeltas;
    if tcs == [] {
      assert said + [] == said;
    } else {
      var front, tc := tcs[..|tcs| - 1], tcs[|tcs| - 1];
      CallsSpoken(env, c, front, said);
      var d := ProcessToolCalls(env, c, front);
      hide ProcessToolCall, ProcessToolCalls;
      assert ProcessToolCalls(env, c, tcs) == ProcessToolCall(env, d, tc) by {
        CallsUnfold(env, c, tcs);
      }
      var t := ResolveIndex(d.b, tc.index);
      assert t == Entry(d.calls, tc).0 by {
        IndexIsNew(d.b, d.calls, tc);
      }
      CallSpoken(env, d, tc, said + Openings(c.calls, front));
      ProcessToolCallGood(env, d, tc);
      ProcessToolCallLogs(env, d, tc);
      CallKeys(env, d, tc);
      KnownOne(d.calls, (t, tc));
      ToolsLeaveParser(env, d, tc);
      AllStayPresented(env, d, tc);
      assert said + Openings(c.calls, front) + Opening(d.calls, t, tc) == said + Openings(c.calls, tcs);
    }
  }

  lemma CallsUnfold(env: Env, c: Conn, tcs: seq<ToolDelta>)
    requires tcs != [] && !ProcessToolCalls(env, c, tcs).failed
    ensures var d := ProcessToolCalls(env, c, tcs[..|tcs| - 1]);
            !d.failed && ProcessToolCalls(env, c, tcs) == ProcessToolCall(env, d, tcs[|tcs| - 1])
  {
    hide ProcessToolCall;
  }

  lemma IndexIsNew(b: Builder, log: seq<(int, ToolDelta)>, tc: ToolDelta)
    requires b.tools.Keys == Known(log)
    ensures ResolveIndex(b, tc.index) == Entry(log, tc).0
  {
    hide Known;
    assert |b.tools| == |b.tools.Keys|;
  }

  lemma AllStayPresented(env: Env, c: Conn, tc: ToolDelta)
    requires Good(c.b) && AllPresented(c)
    ensures AllPresented(ProcessToolCall(env, c, tc))
  {
    hide Good, Presented, ProcessToolCall, OwnDeltas;
    var d := ProcessToolCall(env, c, tc);
    forall t
      ensures Presented(d.b, t, OwnDeltas(d.calls, t))
    {
      CallPresents(env, c, tc, t);
    }
  }

  // --- the state of the parsers --------------------------------------------------------------------

  predicate SameParser(c: Conn, d: Conn) {
    d.thinkBuffer == c.thinkBuffer && d.inThink == c.inThink && d.fed == c.fed
  }

  lemma ArgLeavesParser(env: Env, c: Conn, t: int, args: string)
    ensures SameParser(c, EmitToolArg(env, c, t, args))
  {
    hide BufferTaskArgs;
  }

  lemma StartLeavesParser(env: Env, c: Conn, t: int, tc: ToolDelta)
    ensures SameParser(c, StartIfNamed(env, c, t, tc))
  {
    hide EmitToolArg, StartTool, IsBlank;
    if !Started(c.b, t) && !IsBlank(NameOf(c.b, t)) {
      var b := StartTool(c.b, t, tc);
      if t in b.tools {
        ArgLeavesParser(env, c.(b := PutTool(b, t, b.tools[t].(preStartArgs := ""))), t, b.tools[t].preStartArgs);
      }
    }
  }

  lemma ToolsLeaveParser(env: Env, c: Conn, tc: ToolDelta)
    ensures SameParser(c, ProcessToolCall(env, c, tc))
  {
    hide Register, StartIfNamed, EmitToolArg, HoldArgs, Started;
    var t := ResolveIndex(c.b, tc.index);
    var c1 := c.(b := Register(c.b, t, tc), calls := c.calls + [(t, tc)]);
    StartLeavesParser(env, c1, t, tc);
    ArgLeavesParser(env, StartIfNamed(env, c1, t, tc), t, tc.args);
  }

  // --- text ---------------------------------------------------------------------------------------

  /** The texts the heuristic parser is fed with. */
  function Fed(parts: seq<ContentChunk>): seq<string> {
    if parts == [] then []
    else
      var last := parts[|parts| - 1];
      Fed(parts[..|parts| - 1]) + if last.thinking then [] else [last.content]
  }

  lemma {:induction false} FedAppend(a: seq<ContentChunk>, b: seq<ContentChunk>)
    ensures Fed(a + b) == Fed(a) + Fed(b)
  {
    if b == [] {
      assert a + b == a;
    } else {
      assert (a + b)[..|a + b| - 1] == a + b[..|b| - 1];
      FedAppend(a, b[..|b| - 1]);
    }
  }

  /** What one part of the text makes the response say: thinking itself, if it is
      enabled, and text as the heuristic parser lets it through, with the tools it
      finds. */
  function PartSaid(env: Env, fed: seq<string>, part: ContentChunk): seq<Utterance> {
    if part.thinking then (if env.thinking then Say(part.content, true) else [])
    else
      var (filtered, tools) := env.heuristic(fed + [part.content]);
      Say(filtered, false) + Found(tools)
  }

  /** The same for parts that follow texts already fed. */
  function PartsSaid(env: Env, fed: seq<string>, parts: seq<ContentChunk>): seq<Utterance> {
    if parts == [] then []
    else
      var front, last := parts[..|parts| - 1], parts[|parts| - 1];
      PartsSaid(env, fed, front) + PartSaid(env, fed + Fed(front), last)
  }

  lemma PartSpoken(env: Env, c: Conn, part: ContentChunk, said: seq<Utterance>)
    requires Spoken(c.b, said) && part.content != ""
    ensures var d := EmitPart(env, c, part);
            && Spoken(d.b, said + PartSaid(env, c.fed, part))
            && d.fed == c.fed + (if part.thinking then [] else [part.content])
            && d.thinkBuffer == c.thinkBuffer && d.inThink == c.inThink
  {
    hide Spoken, EmitText, EmitThinking, EmitHeuristicTools, Found;
    assert said + [] == said && c.fed + [] == c.fed;
    if part.thinking {
      if env.thinking {
        EmitThinkingSpoken(c.b, part.content, said);
      }
    } else {
      var (filtered, tools) := env.heuristic(c.fed + [part.content]);
      assert Say("", false) == [];
      if filtered != "" {
        EmitTextSpoken(c.b, filtered, said);
      }
      hide Say;
      HeuristicToolsSpoken(env, if filtered == "" then c.b else EmitText(c.b, filtered), tools,
          said + Say(filtered, false));
      assert said + Say(filtered, false) + Found(tools) == said + (Say(filtered, false) + Found(tools));
    }
  }

  lemma {:induction false} PartsSpoken(env: Env, c: Conn, parts: seq<ContentChunk>, said: seq<Utterance>)
    requires Spoken(c.b, said) && forall part | part in parts :: part.content != ""
    ensures var d := EmitParts(env, c, parts);
            && Spoken(d.b, said + PartsSaid(env, c.fed, parts)) && d.fed == c.fed + Fed(parts)
            && d.thinkBuffer == c.thinkBuffer && d.inThink == c.inThink
  {
    hide Spoken, EmitPart, PartSaid;
    if parts == [] {
      assert said + [] == said && c.fed + [] == c.fed;
    } else {
      var front, part := parts[..|parts| - 1], parts[|parts| - 1];
      assert parts == front + [part] && part in parts;
      PartsSpoken(env, c, front, said);
      PartSpoken(env, EmitParts(env, c, front), part, said + PartsSaid(env, c.fed, front));
      assert said + PartsSaid(env, c.fed, front) + PartSaid(env, c.fed + Fed(front), part)
          == said + PartsSaid(env, c.fed, parts);
      assert c.fed + Fed(front) + (if part.thinking then [] else [part.content]) == c.fed + Fed(parts);
    }
  }

  lemma {:induction false} PartsNotEmpty(buffer: string, inside: bool)
    ensures forall part | part in FeedLoop(buffer, inside).0 :: part.content != ""
    decreases |buffer|
  {
    if buffer != "" {
      var step := Parse(buffer, inside);
      assert step.chunk.Some? ==> step.chunk.value.content != "";
      if step.chunk.Some? || |step.buffer| < |buffer| {
        PartsNotEmpty(step.buffer, step.inside);
      }
    }
  }

  // --- chunks -------------------------------------------------------------------------------------

  /** The contents fed to the tag parser. */
  function Heard(chunks: seq<Chunk>): seq<string> {
    if chunks == [] then []
    else
      var last := chunks[|chunks| - 1];
      Heard(chunks[..|chunks| - 1]) + if last.hasDelta && last.content != "" then [last.content] else []
  }

  lemma HeardOne(chunks: seq<Chunk>, chunk: Chunk)
    ensures Heard(chunks + [chunk]) ==
              Heard(chunks) + if chunk.hasDelta && chunk.content != "" then [chunk.content] else []
  {
    assert (chunks + [chunk])[..|chunks|] == chunks;
  }

  /** What a text makes the tag parser yield and hold back; no text, nothing. */
  function MoreParts(buffer: string, inside: bool, content: string): seq<ContentChunk> {
    if content == "" then [] else FeedLoop(buffer + content, inside).0
  }

  function HeldAfter(buffer: string, inside: bool, content: string): (string, bool) {
    if content == "" then (buffer, inside)
    else (FeedLoop(buffer + content, inside).1, FeedLoop(buffer + content, inside).2)
  }

  lemma FedOne(chunks: seq<Chunk>, chunk: Chunk)
    requires chunk.hasDelta
    ensures var (parts, buffer, inside) := FeedAll(Heard(chunks));
            var more, held := MoreParts(buffer, inside, chunk.content), HeldAfter(buffer, inside, chunk.content);
            FeedAll(Heard(chunks + [chunk])) == (parts + more, held.0, held.1)
  {
    HeardOne(chunks, chunk);
    var (parts, buffer, inside) := FeedAll(Heard(chunks));
    assert parts + [] == parts;
    if chunk.content == "" {
      assert Heard(chunks) + [] == Heard(chunks);
    } else {
      assert (Heard(chunks) + [chunk.content])[..|Heard(chunks)|] == Heard(chunks);
    }
  }

  /** What one more chunk says: its reasoning, if thinking is enabled, then its
      text, then the tools its deltas open. */
  function ChunkSaid(env: Env, before: seq<Chunk>, chunk: Chunk): seq<Utterance> {
    var (parts, buffer, inside) := FeedAll(Heard(before));
    (if env.thinking then Say(chunk.reasoning, true) else [])
    + PartsSaid(env, Fed(parts), MoreParts(buffer, inside, chunk.content))
    + Openings(LogOf(before), chunk.tools)
  }

  /** All that the chunks say, but for what the parsers still hold back. */
  function Transcript(env: Env, chunks: seq<Chunk>): seq<Utterance> {
    if chunks == [] then []
    else
      var front, last := chunks[..|chunks| - 1], chunks[|chunks| - 1];
      Transcript(env, front) + if last.hasDelta then ChunkSaid(env, front, last) else []
  }

  /** The connection has said the transcript of the chunks and holds back what the
      parsers do. */
  ghost predicate Told(env: Env, c: Conn, chunks: seq<Chunk>) {
    var (parts, buffer, inside) := FeedAll(Heard(chunks));
    && Spoken(c.b, Transcript(env, chunks)) && c.thinkBuffer == buffer && c.inThink == inside && c.fed == Fed(parts)
    && c.calls == LogOf(chunks) && c.b.tools.Keys == Known(c.calls) && AllPresented(c) && Good(c.b)
  }

  lemma ReasoningSpoken(env: Env, c: Conn, chunk: Chunk, said: seq<Utterance>)
    requires Spoken(c.b, said)
    ensures var d := NoteReasoning(env, c, chunk);
            Spoken(d.b, said + if env.thinking then Say(chunk.reasoning, true) else []) && SameParser(c, d)
  {
    hide Spoken;
    assert said + [] == said && Say("", true) == [];
    if env.thinking && chunk.reasoning != "" {
      EmitThinkingSpoken(c.b, chunk.reasoning, said);
    }
  }

  lemma ContentSpoken(env: Env, c: Conn, chunk: Chunk, said: seq<Utterance>)
    requires Spoken(c.b, said)
    ensures var more := MoreParts(c.thinkBuffer, c.inThink, chunk.content);
            var d := NoteContent(env, c, chunk);
            && Spoken(d.b, said + PartsSaid(env, c.fed, more)) && d.fed == c.fed + Fed(more)
            && (d.thinkBuffer, d.inThink) == HeldAfter(c.thinkBuffer, c.inThink, chunk.content)
  {
    hide Spoken;
    assert said + [] == said && c.fed + [] == c.fed;
    if chunk.content != "" {
      var (parts, buffer, inside) := FeedLoop(c.thinkBuffer + chunk.content, c.inThink);
      PartsNotEmpty(c.thinkBuffer + chunk.content, c.inThink);
      PartsSpoken(env, c.(thinkBuffer := buffer, inThink := inside), parts, said);
    }
  }

  lemma BeforeSpoken(env: Env, c: Conn, chunk: Chunk, said: seq<Utterance>)
    requires Spoken(c.b, said)
    ensures var more := MoreParts(c.thinkBuffer, c.inThink, chunk.content);
            var d := BeforeTools(env, c, chunk);
            && Spoken(d.b, said + (if env.thinking then Say(chunk.reasoning, true) else []) + PartsSaid(env, c.fed,
                 more))
            && (d.thinkBuffer, d.inThink) == HeldAfter(c.thinkBuffer, c.inThink, chunk.content)
            && d.fed == c.fed + Fed(more)
  {
    hide Spoken, NoteReasoning, NoteContent, MoreParts, HeldAfter, PartsSaid, Say, CloseContentBlocks;
    ReasoningSpoken(env, c, chunk, said);
    var d := NoteReasoning(env, c, chunk);
    var noted := said + if env.thinking then Say(chunk.reasoning, true) else [];
    ContentSpoken(env, d, chunk, noted);
    CloseSpoken(NoteContent(env, d, chunk).b, noted + PartsSaid(env, c.fed,
        MoreParts(c.thinkBuffer, c.inThink, chunk.content)));
  }

  lemma BeforeAllPresented(env: Env, c: Conn, chunk: Chunk)
    requires Good(c.b) && AllPresented(c)
    ensures var d := BeforeTools(env, c, chunk);
            Good(d.b) && AllPresented(d) && d.calls == c.calls && d.b.tools == c.b.tools
  {
    hide Good, Presented, BeforeTools, OwnDeltas;
    var d := BeforeTools(env, c, chunk);
    BeforeToolsGood(env, c, chunk);
    BeforeToolsTools(env, c, chunk);
    forall t
      ensures Presented(d.b, t, OwnDeltas(d.calls, t))
    {
      BeforePresents(env, c, chunk, t);
    }
  }

  lemma ChunkSpoken(env: Env, c: Conn, chunk: Chunk, said: seq<Utterance>)
    requires Spoken(c.b, said) && chunk.hasDelta && !ProcessChunk(env, c, chunk).failed
    requires c.b.tools.Keys == Known(c.calls) && AllPresented(c) && Good(c.b)
    ensures var more := MoreParts(c.thinkBuffer, c.inThink, chunk.content);
            var d := ProcessChunk(env, c, chunk);
            && Spoken(d.b, said + (if env.thinking then Say(chunk.reasoning, true) else []) + PartsSaid(env, c.fed,
                 more)
                             + Openings(c.calls, chunk.tools))
            && (d.thinkBuffer, d.inThink) == HeldAfter(c.thinkBuffer, c.inThink, chunk.content)
            && d.fed == c.fed + Fed(more)
            && d.calls == Logged(c.calls, chunk.tools) && d.b.tools.Keys == Known(d.calls) && AllPresented(d)
                 && Good(d.b)
  {
    hide Spoken, Good, AllPresented, Known, BeforeTools, ProcessToolCalls, MoreParts, HeldAfter, PartsSaid, Say,
      Openings, Logged;
    BeforeSpoken(env, c, chunk, said);
    BeforeAllPresented(env, c, chunk);
    CallsSpoken(env, BeforeTools(env, c, chunk), chunk.tools,
                said + (if env.thinking then Say(chunk.reasoning, true) else [])
                + PartsSaid(env, c.fed, MoreParts(c.thinkBuffer, c.inThink, chunk.content)));
  }

  lemma Regroup(a: seq<Utterance>, b: seq<Utterance>, c: seq<Utterance>, d: seq<Utterance>)
    ensures a + b + c + d == a + (b + c + d)
  {
  }

  lemma ChunkTold(env: Env, c: Conn, chunks: seq<Chunk>, chunk: Chunk)
    requires Told(env, c, chunks) && !c.failed && !ProcessChunk(env, c, chunk).failed
    ensures Told(env, ProcessChunk(env, c, chunk), chunks + [chunk])
  {
    hide Spoken, Good, AllPresented, Known, FeedAll, Heard, MoreParts, HeldAfter, PartsSaid, Say, Openings, Logged;
    assert (chunks + [chunk])[..|chunks|] == chunks;
    var (parts, buffer, inside) := FeedAll(Heard(chunks));
    var said := Transcript(env, chunks);
    if chunk.hasDelta {
      FedOne(chunks, chunk);
      FedAppend(parts, MoreParts(buffer, inside, chunk.content));
      ChunkSpoken(env, c, chunk, said);
      hide ProcessChunk;
      Regroup(said, if env.thinking then Say(chunk.reasoning, true) else [],
              PartsSaid(env, Fed(parts), MoreParts(buffer, inside, chunk.content)),
                  Openings(LogOf(chunks), chunk.tools));
    } else {
      HeardOne(chunks, chunk);
      assert Heard(chunks) + [] == Heard(chunks) && said + [] == said;
    }
  }

  lemma NothingTold(env: Env)
    ensures Told(env, NEW_CONN, [])
  {
    EmitSays([], MessageStart);
    NewConnGood();
    assert [] + [MessageStart] == [MessageStart];
    hide Good;
    forall t
      ensures Presented(NEW_CONN.b, t, OwnDeltas(NEW_CONN.calls, t))
    {
      NobodyPresented(t);
    }
  }

  lemma {:induction false} ChunksTold(env: Env, chunks: seq<Chunk>)
    requires !ProcessChunks(env, chunks).failed
    ensures Told(env, ProcessChunks(env, chunks), chunks)
  {
    hide Told, ProcessChunk;
    if chunks == [] {
      NothingTold(env);
    } else {
      var front := chunks[..|chunks| - 1];
      assert chunks == front + [chunks[|chunks| - 1]];
      ChunksTold(env, front);
      ChunkTold(env, ProcessChunks(env, front), front, chunks[|chunks| - 1]);
    }
  }

  // --- the end of a response ----------------------------------------------------------------------

  /** What the tag parser held back, as text or, if enabled, as thinking. */
  function HeldSaid(env: Env, buffer: string, inside: bool): seq<Utterance> {
    if !inside then Say(buffer, false) else if env.thinking then Say(buffer, true) else []
  }

  lemma FlushThinkSpoken(env: Env, c: Conn, said: seq<Utterance>)
    requires Spoken(c.b, said)
    ensures var d := FlushThink(env, c);
            Spoken(d.b, said + HeldSaid(env, c.thinkBuffer, c.inThink)) && d.b.tools == c.b.tools && d.fed == c.fed
  {
    hide Spoken;
    assert said + [] == said && Say("", true) == [] && Say("", false) == [];
    if c.thinkBuffer != "" {
      if !c.inThink {
        EmitTextSpoken(c.b, c.thinkBuffer, said);
      } else if env.thinking {
        EmitThinkingSpoken(c.b, c.thinkBuffer, said);
      }
    }
  }

  /** The blank that stands in for text that is missing: when nothing at all was
      said, or nothing but reasoning. */
  function StandIn(hasTool: bool, text: string, thinking: string): string {
    if !hasTool && ((text == "" && thinking == "") || (IsBlank(text) && !IsBlank(thinking))) then " " else ""
  }

  lemma EnsureContentSpoken(b: Builder, said: seq<Utterance>)
    requires Spoken(b, said)
    ensures Spoken(EnsureContent(b),
                   said + Say(StandIn(HasEmittedToolBlock(b), Chars(said, false), Chars(said, true)), false))
  {
    EmitTextSpoken(b, " ", said);
    assert said + [] == said && Say("", false) == [];
    hide IsBlank, EmitText, HasEmittedToolBlock;
  }

  lemma {:induction false} FlushAliasesSpoken(env: Env, c: Conn, keys: seq<int>, said: seq<Utterance>)
    requires Spoken(c.b, said)
    ensures Spoken(FlushAliases(env, c, keys).b, said)
  {
    hide Spoken;
    if keys != [] {
      FlushAliasesSpoken(env, c, keys[..|keys| - 1], said);
      var d := FlushAliases(env, c, keys[..|keys| - 1]);
      var t := keys[|keys| - 1];
      var buffered := BufferedText(d.aliasBuffers, t);
      if buffered != "" && NeedsAliasFlush(env, d, t) {
        var restored := env.restore(d.b.tools[t].name, buffered);
        ToolDeltaSpoken(d.b, t, if restored.Some? then restored.value else buffered, said);
      }
    }
  }

  lemma {:induction false} FlushTasksSpoken(b: Builder, keys: seq<int>, parse: string -> TaskParse,
      said: seq<Utterance>)
    requires Spoken(b, said)
    ensures Spoken(FlushTasks(b, keys, parse), said)
  {
    hide Spoken;
    if keys != [] {
      FlushTasksSpoken(b, keys[..|keys| - 1], parse, said);
      var c := FlushTasks(b, keys[..|keys| - 1], parse);
      var t := keys[|keys| - 1];
      if NeedsTaskFlush(c, t) {
        var state := c.tools[t].(taskArgBuffer := "", taskArgsEmitted := true);
        PutToolSpoken(c, t, state, said);
        ToolDeltaSpoken(PutTool(c, t, state), t, TaskFlushJson(c.tools[t].taskArgBuffer, parse), said);
      }
    }
  }

  lemma {:induction false} StopToolsSpoken(b: Builder, keys: seq<int>, said: seq<Utterance>)
    requires Spoken(b, said)
    ensures Spoken(StopTools(b, keys), said)
  {
    hide Spoken;
    if keys != [] {
      StopToolsSpoken(b, keys[..|keys| - 1], said);
      var c := StopTools(b, keys[..|keys| - 1]);
      var t := keys[|keys| - 1];
      if t in c.tools && c.tools[t].started {
        var stop := BlockStop(c.tools[t].blockIndex);
        SilentSpoken(c, Emit(c, stop), stop, said);
      }
    }
  }

  lemma CloseAllSpoken(b: Builder, said: seq<Utterance>)
    requires Spoken(b, said)
    ensures Spoken(CloseAllBlocks(b), said)
  {
    hide Spoken, CloseContentBlocks, StopTools;
    CloseSpoken(b, said);
    StopToolsSpoken(CloseContentBlocks(b), CloseContentBlocks(b).order, said);
  }

  lemma EndSpoken(b: Builder, reason: string, said: seq<Utterance>)
    requires Spoken(b, said)
    ensures Spoken(Emit(Emit(b, MessageDelta(reason)), MessageStop), said)
  {
    hide Spoken;
    SilentSpoken(b, Emit(b, MessageDelta(reason)), MessageDelta(reason), said);
    SilentSpoken(Emit(b, MessageDelta(reason)), Emit(Emit(b, MessageDelta(reason)), MessageStop), MessageStop, said);
  }

  /** What a response that ends normally says at its end. */
  function EndSaid(env: Env, said: seq<Utterance>, buffer: string, inside: bool, fed: seq<string>, hasTool: bool)
    : seq<Utterance>
  {
    var whole := said + HeldSaid(env, buffer, inside) + Found(env.heuristicFlush(fed));
    whole + Say(StandIn(hasTool, Chars(whole, false), Chars(whole, true)), false)
  }

  lemma CompleteSpoken(env: Env, c: Conn, said: seq<Utterance>)
    requires Spoken(c.b, said)
    ensures Spoken(Complete(env, c).b, EndSaid(env, said, c.thinkBuffer, c.inThink, c.fed, HasEmittedToolBlock(c.b)))
  {
    var d := FlushThink(env, c);
    FlushThinkSpoken(env, c, said);
    var tools := env.heuristicFlush(d.fed);
    var held := said + HeldSaid(env, c.thinkBuffer, c.inThink);
    HeuristicToolsTools(env, d.b, tools);
    hide Spoken, StandIn, FlushThink, EnsureContent, EmitHeuristicTools, HeldSaid, Say, Found;
    HeuristicToolsSpoken(env, d.b, tools, held);
    EnsureContentSpoken(EmitHeuristicTools(env, d.b, tools), held + Found(tools));
  }

  lemma FinishSpoken(env: Env, c: Conn, said: seq<Utterance>)
    requires Spoken(Complete(env, c).b, said)
    ensures Spoken(FinishResponse(env, c), said)
  {
    hide Spoken, Complete, FlushAliases, FlushTasks, CloseAllBlocks;
    var d := Complete(env, c);
    FlushAliasesSpoken(env, d, d.aliasBuffers.keys, said);
    var e := FlushAliases(env, d, d.aliasBuffers.keys);
    FlushTasksSpoken(e.b, e.b.order, env.parseTask, said);
    var b := FlushTasks(e.b, e.b.order, env.parseTask);
    CloseAllSpoken(b, said);
    EndSpoken(CloseAllBlocks(b), StopReason(c.finishReason), said);
  }

  lemma ErrorTextSaid(c: Builder, message: string)
    ensures Said(EmitError(c, message).emitted) == Said(c.emitted) + Say(message, false)
  {
    var start, delta, stop := BlockStart(c.next, TextBlock()), BlockDelta(c.next, Delta(TextDelta, message)),
        BlockStop(c.next);
    EmitSays(c.emitted, start);
    EmitSays(c.emitted + [start], delta);
    EmitSays(c.emitted + [start] + [delta], stop);
    NothingSaid();
    hide Said, Say;
    assert Said(c.emitted) + [] + Say(message, false) + [] == Said(c.emitted) + Say(message, false);
  }

  lemma EndSaysNothing(es: seq<Event>, reason: string)
    ensures Said(es + [MessageDelta(reason)] + [MessageStop]) == Said(es)
  {
    EmitSays(es, MessageDelta(reason));
    EmitSays(es + [MessageDelta(reason)], MessageStop);
    hide Said;
    assert Said(es) + [] + [] == Said(es);
  }

  lemma FailSpoken(b: Builder, message: string, said: seq<Utterance>)
    requires Spoken(b, said)
    ensures Said(FailResponse(b, message).emitted) == said + if HasEmittedToolBlock(b) then [] else Say(message, false)
  {
    CloseAllSpoken(b, said);
    CloseAllExtends(b);
    var c := CloseAllBlocks(b);
    SameToolBlocks(b, c);
    hide CloseAllBlocks, HasEmittedToolBlock, Say;
    EmitSays(c.emitted, ErrorEvent(message));
    ErrorTextSaid(c, message);
    hide EmitError, Said;
    var d := if HasEmittedToolBlock(c) then Emit(c, ErrorEvent(message)) else EmitError(c, message);
    EndSaysNothing(d.emitted, "end_turn");
    assert said + [] == said;
  }

  lemma NothingSaid()
    ensures Say("", false) == []
  {
  }

  lemma SameToolBlocks(b: Builder, c: Builder)
    requires c.tools == b.tools
    ensures HasEmittedToolBlock(c) == HasEmittedToolBlock(b)
  {
  }

  /** Some tool has made up a name. */
  ghost predicate ToolNamed(log: seq<(int, ToolDelta)>) {
    exists t :: Announcement(t, OwnDeltas(log, t)).Some?
  }

  lemma NamedIsEmitted(c: Conn)
    requires AllPresented(c)
    ensures HasEmittedToolBlock(c.b) <==> ToolNamed(c.calls)
  {
    if t :| t in c.b.tools && c.b.tools[t].started {
      PresentedMeans(c.b, t, OwnDeltas(c.calls, t));
    }
    if t :| Announcement(t, OwnDeltas(c.calls, t)).Some? {
      PresentedMeans(c.b, t, OwnDeltas(c.calls, t));
      assert Started(c.b, t);
    }
  }

  /** What a response says, for every heuristic parser and every interleaving, is
      the transcript of its chunks; then, if it ends normally, what the parsers held
      back and a blank if that is needed, and if it breaks off, the error text
      unless a tool has been announced. */
  lemma ResponseTranscript(env: Env, chunks: seq<Chunk>, broken: bool, message: string)
    requires !ProcessChunks(env, chunks).failed
    ensures var (parts, buffer, inside) := FeedAll(Heard(chunks));
            var said, hasTool := Transcript(env, chunks), ToolNamed(LogOf(chunks));
            Said(StreamResponse(env, chunks, broken, message).emitted) ==
              if broken then said + (if hasTool then [] else Say(message, false))
              else EndSaid(env, said, buffer, inside, Fed(parts), hasTool)
    ensures ProcessChunks(env, chunks).calls == LogOf(chunks)
  {
    var c := ProcessChunks(env, chunks);
    ChunksTold(env, chunks);
    var said := Transcript(env, chunks);
    assert Spoken(c.b, said) && AllPresented(c) && c.calls == LogOf(chunks);
    NamedIsEmitted(c);
    hide Good, AllPresented, Known, Heard, Transcript, ProcessChunks, FailResponse, FinishResponse, Say, EndSaid,
      Complete,
      HasEmittedToolBlock, ToolNamed, LogOf, FeedAll;
    if broken {
      FailSpoken(c.b, message, said);
    } else {
      CompleteSpoken(env, c, said);
      FinishSpoken(env, c, EndSaid(env, said, c.thinkBuffer, c.inThink, c.fed, HasEmittedToolBlock(c.b)));
    }
  }

  // --- how a response ends ------------------------------------------------------------------------

  /** The last finish reason that came. */
  function LastFinish(chunks: seq<Chunk>): string {
    if chunks == [] then ""
    else
      var last := chunks[|chunks| - 1];
      if last.hasDelta && last.finishReason != "" then last.finishReason else LastFinish(chunks[..|chunks| - 1])
  }

  lemma {:induction false} PartsKeepReason(env: Env, c: Conn, parts: seq<ContentChunk>)
    ensures EmitParts(env, c, parts).finishReason == c.finishReason
  {
    if parts != [] {
      PartsKeepReason(env, c, parts[..|parts| - 1]);
    }
  }

  lemma CallKeepsReason(env: Env, c: Conn, tc: ToolDelta)
    ensures ProcessToolCall(env, c, tc).finishReason == c.finishReason
  {
    hide Register, StartTool, BufferTaskArgs, EmitToolDelta, IsBlank, HoldArgs;
  }

  lemma {:induction false} CallsKeepReason(env: Env, c: Conn, tcs: seq<ToolDelta>)
    ensures ProcessToolCalls(env, c, tcs).finishReason == c.finishReason
  {
    if tcs != [] {
      CallsKeepReason(env, c, tcs[..|tcs| - 1]);
      var d := ProcessToolCalls(env, c, tcs[..|tcs| - 1]);
      CallKeepsReason(env, d, tcs[|tcs| - 1]);
      hide ProcessToolCall;
    }
  }

  lemma {:induction false} ReasonIsLast(env: Env, chunks: seq<Chunk>)
    requires !ProcessChunks(env, chunks).failed
    ensures ProcessChunks(env, chunks).finishReason == LastFinish(chunks)
  {
    if chunks != [] {
      var c, chunk := ProcessChunks(env, chunks[..|chunks| - 1]), chunks[|chunks| - 1];
      ReasonIsLast(env, chunks[..|chunks| - 1]);
      var d := NoteReasoning(env, c, chunk);
      var (parts, buffer, inside) := FeedLoop(d.thinkBuffer + chunk.content, d.inThink);
      PartsKeepReason(env, d.(thinkBuffer := buffer, inThink := inside), parts);
      CallsKeepReason(env, BeforeTools(env, c, chunk), chunk.tools);
      hide ProcessToolCalls, EmitParts, FeedLoop, EmitThinking, CloseContentBlocks;
    }
  }

  /** A response begins with message_start and ends with the reason and
      message_stop: what the last finish reason maps to, or end_turn after a failure. */
  lemma ResponseEnds(env: Env, chunks: seq<Chunk>, broken: bool, message: string)
    ensures var es := StreamResponse(env, chunks, broken, message).emitted;
            var failed, reason := broken || ProcessChunks(env, chunks).failed, LastFinish(chunks);
            && |es| >= 3 && es[0] == MessageStart && es[|es| - 1] == MessageStop
            && es[|es| - 2] == MessageDelta(if failed then "end_turn"
                                            else if reason == "length" then "max_tokens"
                                            else if reason == "tool_calls" then "tool_use"
                                            else "end_turn")
  {
    ResponseSatisfiesContract(env, chunks, broken, message);
    var c, r := ProcessChunks(env, chunks), StreamResponse(env, chunks, broken, message);
    if !c.failed {
      ReasonIsLast(env, chunks);
    }
    hide ProcessChunks, Drain, CloseAllBlocks, HasEmittedToolBlock, LastFinish, StartIndices, Contract;
    assert |r.emitted| >= 2;
  }

  lemma ErrorTextIs(c: Builder, message: string)
    ensures EmitError(c, message).emitted ==
              c.emitted + [BlockStart(c.next, Block(Text, "", NoId, "", "")),
                  BlockDelta(c.next, Delta(TextDelta, message)),
                           BlockStop(c.next)]
  {
  }

  lemma FailureEnds(b: Builder, message: string)
    ensures var c, es := CloseAllBlocks(b), FailResponse(b, message).emitted;
            es == c.emitted + (if HasEmittedToolBlock(b) then [ErrorEvent(message)]
                               else [BlockStart(c.next, Block(Text, "", NoId, "", "")),
                                     BlockDelta(c.next, Delta(TextDelta, message)), BlockStop(c.next)])
                  + [MessageDelta("end_turn"), MessageStop]
  {
    CloseAllExtends(b);
    var c := CloseAllBlocks(b);
    SameToolBlocks(b, c);
    ErrorTextIs(c, message);
    hide CloseAllBlocks, HasEmittedToolBlock, EmitError;
  }

  /** A response that fails closes what is open and reports the message: as a
      top-level error after a tool, and else as the text of a block of its own. */
  lemma FailureIsReported(env: Env, chunks: seq<Chunk>, broken: bool, message: string)
    requires broken || ProcessChunks(env, chunks).failed
    ensures var b := ProcessChunks(env, chunks).b; var c := CloseAllBlocks(b);
            StreamResponse(env, chunks, broken, message).emitted ==
              c.emitted + (if HasEmittedToolBlock(b) then [ErrorEvent(message)]
                           else [BlockStart(c.next, Block(Text, "", NoId, "", "")),
                                 BlockDelta(c.next, Delta(TextDelta, message)), BlockStop(c.next)])
              + [MessageDelta("end_turn"), MessageStop]
  {
    FailureEnds(ProcessChunks(env, chunks).b, message);
    hide ProcessChunks, CloseAllBlocks, HasEmittedToolBlock, FailResponse;
  }
}
