/** What becomes of the argument fragments of a streamed tool call
    (proxy/providers/openai_compat.py:187-318): none is lost before it is routed,
    and where each goes depends on the name the tool has by then. */
module TransportTools {
  import opened Common
  import opened StreamContract
  import opened SseBuilding
  import opened OpenAiTransport
  import opened TransportContract

  // --- the log of tool deltas ------------------------------------------------------------

  /** The deltas of tool `t`, in arrival order. */
  function OwnDeltas(calls: seq<(int, ToolDelta)>, t: int): seq<ToolDelta> {
    if calls == [] then []
    else
      var last := calls[|calls| - 1];
      OwnDeltas(calls[..|calls| - 1], t) + if last.0 == t then [last.1] else []
  }

  /** All argument fragments, concatenated. */
  function ArgsOf(deltas: seq<ToolDelta>): string {
    if deltas == [] then "" else ArgsOf(deltas[..|deltas| - 1]) + deltas[|deltas| - 1].args
  }

  /** The tool deltas of the chunks, in arrival order. */
  function AllToolDeltas(chunks: seq<Chunk>): seq<ToolDelta> {
    if chunks == [] then []
    else
      var last := chunks[|chunks| - 1];
      AllToolDeltas(chunks[..|chunks| - 1]) + if last.hasDelta then last.tools else []
  }

  function Deltas(calls: seq<(int, ToolDelta)>): seq<ToolDelta> {
    seq(|calls|, i requires 0 <= i < |calls| => calls[i].1)
  }

  ghost predicate RawIndices(calls: seq<(int, ToolDelta)>) {
    forall k | 0 <= k < |calls| && calls[k].1.index >= 0 :: calls[k].0 == calls[k].1.index
  }

  lemma EmitToolArgCalls(env: Env, c: Conn, t: int, args: string)
    ensures EmitToolArg(env, c, t, args).calls == c.calls
  {
  }

  lemma StartIfNamedCalls(env: Env, c: Conn, t: int, tc: ToolDelta)
    ensures StartIfNamed(env, c, t, tc).calls == c.calls
  {
    if !Started(c.b, t) && !IsBlank(NameOf(c.b, t)) {
      var b := StartTool(c.b, t, tc);
      EmitToolArgCalls(env, c.(b := PutTool(b, t, b.tools[t].(preStartArgs := ""))), t, b.tools[t].preStartArgs);
    }
  }

  lemma ProcessToolCallLogs(env: Env, c: Conn, tc: ToolDelta)
    ensures ProcessToolCall(env, c, tc).calls == c.calls + [(ResolveIndex(c.b, tc.index), tc)]
  {
    var t := ResolveIndex(c.b, tc.index);
    var c1 := c.(b := Register(c.b, t, tc), calls := c.calls + [(t, tc)]);
    StartIfNamedCalls(env, c1, t, tc);
    EmitToolArgCalls(env, StartIfNamed(env, c1, t, tc), t, tc.args);
  }

  lemma LogOne(calls: seq<(int, ToolDelta)>, b: Builder, tc: ToolDelta)
    requires RawIndices(calls)
    ensures var more := calls + [(ResolveIndex(b, tc.index), tc)];
            RawIndices(more) && Deltas(more) == Deltas(calls) + [tc]
  {
  }

  lemma {:induction false} ProcessToolCallsLogs(env: Env, c: Conn, tcs: seq<ToolDelta>)
    requires RawIndices(c.calls)
    ensures var d := ProcessToolCalls(env, c, tcs);
            RawIndices(d.calls) && (!d.failed ==> Deltas(d.calls) == Deltas(c.calls) + tcs)
  {
    if tcs == [] {
      assert Deltas(c.calls) + [] == Deltas(c.calls);
    } else {
      var front, tc := tcs[..|tcs| - 1], tcs[|tcs| - 1];
      ProcessToolCallsLogs(env, c, front);
      var d := ProcessToolCalls(env, c, front);
      if !d.failed {
        ProcessToolCallLogs(env, d, tc);
        hide ProcessToolCall;
        LogOne(d.calls, d.b, tc);
        assert Deltas(c.calls) + front + [tc] == Deltas(c.calls) + tcs;
      }
    }
  }

  /** The log is the tool deltas of the chunks, each at its own index unless
      that index was negative. */
  lemma {:induction false} LogIsComplete(env: Env, chunks: seq<Chunk>)
    ensures var c := ProcessChunks(env, chunks);
            RawIndices(c.calls) && (!c.failed ==> Deltas(c.calls) == AllToolDeltas(chunks))
  {
    if chunks != [] {
      var front, chunk := chunks[..|chunks| - 1], chunks[|chunks| - 1];
      LogIsComplete(env, front);
      var c := ProcessChunks(env, front);
      if !c.failed && chunk.hasDelta {
        BeforeToolsTools(env, c, chunk);
        ProcessToolCallsLogs(env, BeforeTools(env, c, chunk), chunk.tools);
      }
    }
  }

  // --- one tool on its own -----------------------------------------------------------------

  /** A piece of arguments and the name the tool had when it was passed on. */
  datatype Piece = Piece(name: string, text: string)

  /** The name merged so far, what is held until there is one, and the pieces
      passed on. */
  datatype Feed = Feed(name: string, held: string, pieces: seq<Piece>)

  function FeedOne(f: Feed, tc: ToolDelta): Feed {
    var name := if tc.name.Some? then MergeName(f.name, tc.name.value) else f.name;
    if IsBlank(name) then Feed(name, f.held + tc.args, f.pieces)
    else
      var released := if f.held != "" then f.pieces + [Piece(name, f.held)] else f.pieces;
      Feed(name, "", if tc.args != "" then released + [Piece(name, tc.args)] else released)
  }

  function FeedOf(deltas: seq<ToolDelta>): Feed {
    if deltas == [] then Feed("", "", []) else FeedOne(FeedOf(deltas[..|deltas| - 1]), deltas[|deltas| - 1])
  }

  /** What was sent, and what is kept back for Task and for aliased arguments. */
  datatype Routed = Routed(contents: seq<string>, task: string, taskDone: bool, alias: Option<string>)

  const UNROUTED: Routed := Routed([], "", false, None)

  function RouteOne(env: Env, r: Routed, piece: Piece): Routed {
    if piece.name == "Task" then
      if r.taskDone then r
      else
        var whole := r.task + piece.text;
        var parsed := env.parseTask(whole);
        if parsed.Object? then r.(task := "", taskDone := true, contents := r.contents + [parsed.encoded])
        else r.(task := whole)
    else if env.aliased(piece.name) then
      var buffered := (if r.alias.Some? then r.alias.value else "") + piece.text;
      var restored := env.restore(piece.name, buffered);
      if restored.None? then r.(alias := Some(buffered))
          else r.(alias := None, contents := r.contents + [restored.value])
    else r.(contents := r.contents + [piece.text])
  }

  function Route(env: Env, pieces: seq<Piece>): Routed {
    if pieces == [] then UNROUTED else RouteOne(env, Route(env, pieces[..|pieces| - 1]), pieces[|pieces| - 1])
  }

  /** What the end of the response adds, for a tool with its final name. */
  function FinishAlias(env: Env, name: string, r: Routed): Routed {
    if r.alias.None? || r.alias.value == "" then r.(alias := None)
    else if name == "Task" || !env.aliased(name) then r
    else
      var restored := env.restore(name, r.alias.value);
      r.(alias := None, contents := r.contents + [if restored.Some? then restored.value else r.alias.value])
  }

  function FinishTask(env: Env, r: Routed): Routed {
    if r.task == "" || r.taskDone then r
    else r.(task := "", taskDone := true, contents := r.contents + [TaskFlushJson(r.task, env.parseTask)])
  }

  /** Everything sent to the block of a tool with these deltas. */
  function SentFor(env: Env, deltas: seq<ToolDelta>): seq<string> {
    var f := FeedOf(deltas);
    FinishTask(env, FinishAlias(env, f.name, Route(env, f.pieces))).contents
  }

  // --- every fragment is held or passed on --------------------------------------------------------

  function TextsOf(pieces: seq<Piece>): seq<string> {
    if pieces == [] then [] else TextsOf(pieces[..|pieces| - 1]) + [pieces[|pieces| - 1].text]
  }

  function Concat(parts: seq<string>): string {
    if parts == [] then "" else Concat(parts[..|parts| - 1]) + parts[|parts| - 1]
  }

  lemma OnePiece(pieces: seq<Piece>, piece: Piece)
    ensures TextsOf(pieces + [piece]) == TextsOf(pieces) + [piece.text]
    ensures Concat(TextsOf(pieces + [piece])) == Concat(TextsOf(pieces)) + piece.text
  {
    assert (pieces + [piece])[..|pieces|] == pieces;
    var texts := TextsOf(pieces) + [piece.text];
    assert texts[..|texts| - 1] == TextsOf(pieces);
  }

  /** No fragment is lost, repeated or reordered on its way to being passed on,
      those that came before the name included. */
  lemma {:induction false} FragmentsAreConserved(deltas: seq<ToolDelta>)
    ensures var f := FeedOf(deltas); Concat(TextsOf(f.pieces)) + f.held == ArgsOf(deltas)
    ensures var f := FeedOf(deltas); !IsBlank(f.name) ==> f.held == ""
    ensures var f := FeedOf(deltas); IsBlank(f.name) ==> f.pieces == []
  {
    if deltas != [] {
      var front, tc := deltas[..|deltas| - 1], deltas[|deltas| - 1];
      FragmentsAreConserved(front);
      FeedConserves(FeedOf(front), tc);
    }
  }

  lemma FeedConserves(f: Feed, tc: ToolDelta)
    requires (!IsBlank(f.name) ==> f.held == "") && (IsBlank(f.name) ==> f.pieces == [])
    ensures var g := FeedOne(f, tc);
            && Concat(TextsOf(g.pieces)) + g.held == Concat(TextsOf(f.pieces)) + f.held + tc.args
            && (!IsBlank(g.name) ==> g.held == "") && (IsBlank(g.name) ==> g.pieces == [])
  {
    var g := FeedOne(f, tc);
    NameStays(f, tc);
    if IsBlank(g.name) {
      var text := Concat(TextsOf(f.pieces));
      assert text + (f.held + tc.args) == text + f.held + tc.args;
    } else {
      hide IsBlank, TextsOf, Concat, MergeName;
      var released := if f.held != "" then f.pieces + [Piece(g.name, f.held)] else f.pieces;
      var before := Concat(TextsOf(f.pieces)) + f.held;
      OnePiece(f.pieces, Piece(g.name, f.held));
      NoMore(Concat(TextsOf(f.pieces)));
      assert Concat(TextsOf(released)) == before;
      OnePiece(released, Piece(g.name, tc.args));
      NoMore(before);
      NoMore(Concat(TextsOf(g.pieces)));
      assert g.pieces == if tc.args != "" then released + [Piece(g.name, tc.args)] else released;
    }
  }

  lemma NoMore(s: string)
    ensures s + "" == s && "" + s == s
  {
  }

  /** A name that is no longer blank stays so. */
  lemma NameStays(f: Feed, tc: ToolDelta)
    ensures !IsBlank(f.name) ==> !IsBlank(FeedOne(f, tc).name)
  {
    if !IsBlank(f.name) && tc.name.Some? {
      MergedStays(f.name, tc.name.value);
    }
  }

  lemma MergedStays(prev: string, name: string)
    requires !IsBlank(prev)
    ensures !IsBlank(MergeName(prev, name))
  {
    var i :| 0 <= i < |prev| && !IsSpace(prev[i]);
    var merged := MergeName(prev, name);
    assert merged[..|prev|] == prev;
    assert merged[i] == prev[i];
  }

  // --- a tool among others ---------------------------------------------------------------------------

  function StateOf(c: Conn, t: int): ToolCallState {
    if t in c.b.tools then c.b.tools[t] else NEW_TOOL
  }

  function AliasOf(c: Conn, t: int): Option<string> {
    if t in c.aliasBuffers.texts then Some(c.aliasBuffers.texts[t]) else None
  }

  /** All that the transport keeps about one tool, its block and id apart. */
  datatype Solo = Solo(name: string, started: bool, held: string, routed: Routed)

  function SoloOf(c: Conn, t: int): Solo {
    var st := StateOf(c, t);
    Solo(st.name, st.started, st.preStartArgs, Routed(st.contents, st.taskArgBuffer, st.taskArgsEmitted, AliasOf(c, t)))
  }

  lemma SentSolo(c: Conn, u: int, json: string, t: int)
    requires u in c.b.tools
    ensures var d, r := c.(b := EmitToolDelta(c.b, u, json)), SoloOf(c, t).routed;
            SoloOf(d, t) == if u == t then SoloOf(c, t).(routed := r.(contents := r.contents + [json]))
                else SoloOf(c, t)
    ensures u != t ==> StateOf(c.(b := EmitToolDelta(c.b, u, json)), t) == StateOf(c, t)
  {
  }

  lemma AliasSolo(c: Conn, u: int, text: string, t: int)
    ensures var r := SoloOf(c, t).routed;
            && SoloOf(c.(aliasBuffers := PutBuffer(c.aliasBuffers, u, text)), t)
                 == (if u == t then SoloOf(c, t).(routed := r.(alias := Some(text))) else SoloOf(c, t))
            && SoloOf(c.(aliasBuffers := PopBuffer(c.aliasBuffers, u)), t)
                 == (if u == t then SoloOf(c, t).(routed := r.(alias := None)) else SoloOf(c, t))
  {
  }

  lemma TaskSolo(c: Conn, u: int, whole: string, done: bool, t: int)
    requires u in c.b.tools
    ensures var d := c.(b := PutTool(c.b, u, c.b.tools[u].(taskArgBuffer := whole, taskArgsEmitted := done)));
            SoloOf(d, t) == if u == t then SoloOf(c, t).(routed :=
                SoloOf(c, t).routed.(task := whole, taskDone := done)) else SoloOf(c, t)
    ensures u != t ==>
              StateOf(c.(b := PutTool(c.b, u, c.b.tools[u].(taskArgBuffer := whole, taskArgsEmitted := done))), t) ==
                  StateOf(c, t)
  {
  }

  lemma SoloFields(c: Conn, t: int)
    requires t in c.b.tools
    ensures var st, r := c.b.tools[t], SoloOf(c, t).routed;
            SoloOf(c, t).name == st.name && r.task == st.taskArgBuffer && r.taskDone == st.taskArgsEmitted
                && r.contents == st.contents
    ensures SoloOf(c, t).routed.alias == AliasOf(c, t)
  {
  }

  lemma PutHas(b: Builder, t: int, state: ToolCallState)
    ensures t in PutTool(b, t, state).tools && PutTool(b, t, state).tools[t] == state
  {
  }

  lemma EmitTaskSolo(env: Env, c: Conn, u: int, args: string, t: int)
    requires u in c.b.tools && args != "" && c.b.tools[u].name == "Task"
    ensures var d := EmitToolArg(env, c, u, args);
            !d.failed || u != t ==>
              SoloOf(d, t) == if u == t then SoloOf(c, t).(routed :=
                  RouteOne(env, SoloOf(c, t).routed, Piece("Task", args))) else SoloOf(c, t)
    ensures u != t ==> StateOf(EmitToolArg(env, c, u, args), t) == StateOf(c, t)
  {
    hide SoloOf, StateOf, PutTool, EmitToolDelta;
    SoloFields(c, u);
    var st := c.b.tools[u];
    if !st.taskArgsEmitted {
      var whole := st.taskArgBuffer + args;
      var parsed := env.parseTask(whole);
      var done := st.(taskArgBuffer := "", taskArgsEmitted := true);
      PutHas(c.b, u, done);
      TaskSolo(c, u, "", true, t);
      TaskSolo(c, u, whole, false, t);
      assert st.(taskArgBuffer := whole) == st.(taskArgBuffer := whole, taskArgsEmitted := false);
      if parsed.Object? {
        SentSolo(c.(b := PutTool(c.b, u, done)), u, parsed.encoded, t);
      }
      FailedSolo(c, PutTool(c.b, u, st.(taskArgBuffer := whole)), t);
    }
  }

  lemma FailedSolo(c: Conn, b: Builder, t: int)
    ensures SoloOf(c.(b := b, failed := true), t) == SoloOf(c.(b := b), t)
    ensures StateOf(c.(b := b, failed := true), t) == StateOf(c.(b := b), t)
  {
  }

  lemma EmitAliasSolo(env: Env, c: Conn, u: int, args: string, t: int)
    requires u in c.b.tools && args != "" && c.b.tools[u].name != "Task" && env.aliased(c.b.tools[u].name)
    ensures var d := EmitToolArg(env, c, u, args);
            SoloOf(d, t) == if u == t then SoloOf(c, t).(routed :=
                RouteOne(env, SoloOf(c, t).routed, Piece(SoloOf(c, t).name, args))) else SoloOf(c, t)
    ensures u != t ==> StateOf(EmitToolArg(env, c, u, args), t) == StateOf(c, t)
  {
    hide SoloOf, PutBuffer, PopBuffer, EmitToolDelta;
    SoloFields(c, u);
    var buffered := BufferedText(c.aliasBuffers, u) + args;
    var restored := env.restore(c.b.tools[u].name, buffered);
    AliasSolo(c, u, buffered, t);
    if restored.Some? {
      SentSolo(c.(aliasBuffers := PopBuffer(c.aliasBuffers, u)), u, restored.value, t);
    }
  }

  /** Arguments passed on for one tool are routed by its name, and no other tool
      is touched. */
  lemma EmitSolo(env: Env, c: Conn, u: int, args: string, t: int)
    requires u in c.b.tools && args != ""
    ensures var d := EmitToolArg(env, c, u, args);
            !d.failed || u != t ==>
              SoloOf(d, t) == if u == t then SoloOf(c, t).(routed :=
                  RouteOne(env, SoloOf(c, t).routed, Piece(SoloOf(c, t).name, args))) else SoloOf(c, t)
    ensures u != t ==> StateOf(EmitToolArg(env, c, u, args), t) == StateOf(c, t)
  {
    hide SoloOf, EmitToolDelta, BufferTaskArgs, PutBuffer, PopBuffer;
    SoloFields(c, u);
    var name := c.b.tools[u].name;
    if name == "Task" {
      EmitTaskSolo(env, c, u, args, t);
    } else if env.aliased(name) {
      EmitAliasSolo(env, c, u, args, t);
    } else {
      SentSolo(c, u, args, t);
    }
  }

  lemma EmitToolArgFrame(env: Env, c: Conn, u: int, args: string, t: int)
    requires t != u
    ensures StateOf(EmitToolArg(env, c, u, args), t) == StateOf(c, t)
    ensures SoloOf(EmitToolArg(env, c, u, args), t) == SoloOf(c, t)
  {
    hide SoloOf, StateOf, EmitToolDelta, BufferTaskArgs, PutBuffer, PopBuffer;
    if args != "" && u in c.b.tools {
      EmitSolo(env, c, u, args, t);
    }
  }

  lemma StartIfNamedFrame(env: Env, c: Conn, u: int, tc: ToolDelta, t: int)
    requires t != u
    ensures SoloOf(StartIfNamed(env, c, u, tc), t) == SoloOf(c, t)
  {
    if !Started(c.b, u) && !IsBlank(NameOf(c.b, u)) {
      var b := StartTool(c.b, u, tc);
      var cleared := c.(b := PutTool(b, u, b.tools[u].(preStartArgs := "")));
      assert SoloOf(c.(b := b), t) == SoloOf(c, t) && SoloOf(cleared, t) == SoloOf(c, t);
      EmitToolArgFrame(env, cleared, u, b.tools[u].preStartArgs, t);
    }
  }

  /** The registered connection, before the block is started. */
  function Registered(c: Conn, t: int, tc: ToolDelta): Conn {
    c.(b := Register(c.b, t, tc), calls := c.calls + [(t, tc)])
  }

  lemma RegisteredFrame(c: Conn, u: int, tc: ToolDelta, t: int)
    requires t != u
    ensures SoloOf(Registered(c, u, tc), t) == SoloOf(c, t)
  {
  }

  lemma HeldFrame(c: Conn, u: int, args: string, t: int)
    requires t != u
    ensures SoloOf(c.(b := HoldArgs(c.b, u, args)), t) == SoloOf(c, t)
  {
  }

  lemma ProcessToolCallFrame(env: Env, c: Conn, tc: ToolDelta, t: int)
    requires t != ResolveIndex(c.b, tc.index)
    ensures SoloOf(ProcessToolCall(env, c, tc), t) == SoloOf(c, t)
  {
    hide SoloOf, StartIfNamed, HoldArgs, EmitToolArg, Register;
    var u := ResolveIndex(c.b, tc.index);
    var c1 := Registered(c, u, tc);
    RegisteredFrame(c, u, tc, t);
    StartIfNamedFrame(env, c1, u, tc, t);
    var c2 := StartIfNamed(env, c1, u, tc);
    EmitToolArgFrame(env, c2, u, tc.args, t);
    HeldFrame(c2, u, tc.args, t);
  }

  // --- its own deltas ----------------------------------------------------------------------------------

  lemma RegisterSolo(c: Conn, t: int, tc: ToolDelta)
    ensures var d := Registered(c, t, tc);
            && SoloOf(d, t) == SoloOf(c, t).(name :=
                 if tc.name.Some? then MergeName(SoloOf(c, t).name, tc.name.value) else SoloOf(c, t).name)
            && (SoloOf(d, t).name != "" ==> t in d.b.tools)
  {
    hide MergeName;
    assert forall name: string :: MergeName("", name) == name by {
      MergeFirst();
    }
  }

  lemma MergeFirst()
    ensures forall name: string :: MergeName("", name) == name
  {
  }

  lemma StartSolo(env: Env, c: Conn, t: int, tc: ToolDelta)
    requires !IsBlank(SoloOf(c, t).name) && !SoloOf(c, t).started && t in c.b.tools
    ensures var d, solo := StartIfNamed(env, c, t, tc), SoloOf(c, t);
            && t in d.b.tools
            && (!d.failed ==>
                  SoloOf(d, t) == Solo(solo.name, true, "",
                                       if solo.held == "" then solo.routed
                                           else RouteOne(env, solo.routed, Piece(solo.name, solo.held))))
  {
    hide EmitToolArg, RouteOne, IsBlank;
    var b := StartTool(c.b, t, tc);
    assert SoloOf(c.(b := b), t) == SoloOf(c, t).(started := true);
    var pre := c.b.tools[t].preStartArgs;
    if pre != "" {
      var cleared := c.(b := PutTool(b, t, b.tools[t].(preStartArgs := "")));
      assert SoloOf(cleared, t) == SoloOf(c, t).(started := true, held := "");
      EmitSolo(env, cleared, t, pre, t);
      EmitKeepsTool(env, cleared, t, pre);
    }
  }

  lemma EmitKeepsTool(env: Env, c: Conn, t: int, args: string)
    requires t in c.b.tools
    ensures t in EmitToolArg(env, c, t, args).b.tools
  {
    if c.b.tools[t].name == "Task" {
      var r := BufferTaskArgs(c.b, t, args, env.parseTask);
      assert t in r.b.tools;
    }
    hide BufferTaskArgs;
  }

  /** The transport and the tool on its own agree. */
  ghost predicate Follows(env: Env, c: Conn, t: int, f: Feed, r: Routed) {
    SoloOf(c, t) == Solo(f.name, !IsBlank(f.name), f.held, r) && (!IsBlank(f.name) ==> f.held == "")
  }

  function RouteHeld(env: Env, f: Feed, name: string, r: Routed): Routed {
    if f.held == "" then r else RouteOne(env, r, Piece(name, f.held))
  }

  /** Registration and, if it is time, the start of the block. */
  lemma StartFollows(env: Env, c: Conn, tc: ToolDelta, t: int, f: Feed, r: Routed)
    requires Follows(env, c, t, f, r)
    ensures var name := FeedOne(f, tc).name; var d := StartIfNamed(env, Registered(c, t, tc), t, tc);
            !d.failed ==>
              && (!IsBlank(name) ==> t in d.b.tools)
              && SoloOf(d, t) == if IsBlank(name) then Solo(name, false, f.held, r)
                   else Solo(name, true, "", RouteHeld(env, f, name, r))
  {
    var name := FeedOne(f, tc).name;
    NameStays(f, tc);
    var c1 := Registered(c, t, tc);
    RegisterSolo(c, t, tc);
    assert SoloOf(c1, t).name == name;
    if !IsBlank(name) {
      assert name != "" && t in c1.b.tools;
      if IsBlank(f.name) {
        StartSolo(env, c1, t, tc);
      } else {
        assert Started(c1.b, t);
      }
    } else {
      assert NameOf(c1.b, t) == name;
    }
  }

  lemma ArgsFollow(env: Env, c: Conn, t: int, args: string)
    requires args != "" && (SoloOf(c, t).started ==> t in c.b.tools)
    ensures var solo := SoloOf(c, t);
            var d := if Started(c.b, t) then EmitToolArg(env, c, t, args) else c.(b := HoldArgs(c.b, t, args));
            !d.failed ==>
              SoloOf(d, t) == if solo.started then solo.(routed := RouteOne(env, solo.routed, Piece(solo.name, args)))
                              else solo.(held := solo.held + args)
  {
    hide EmitToolArg, RouteOne;
    if Started(c.b, t) {
      EmitSolo(env, c, t, args, t);
    }
  }

  lemma OwnCallFollows(env: Env, c: Conn, tc: ToolDelta, t: int, f: Feed, r: Routed)
    requires Follows(env, c, t, f, r) && t == ResolveIndex(c.b, tc.index) && !ProcessToolCall(env, c, tc).failed
    ensures var g := FeedOne(f, tc);
            var s := if IsBlank(g.name) then r else RouteHeld(env, f, g.name, r);
            Follows(env, ProcessToolCall(env, c, tc), t, g,
                    if IsBlank(g.name) || tc.args == "" then s else RouteOne(env, s, Piece(g.name, tc.args)))
  {
    StartFollows(env, c, tc, t, f, r);
    var c2 := StartIfNamed(env, Registered(c, t, tc), t, tc);
    hide StartIfNamed, Register, RouteOne, EmitToolArg, IsBlank, MergeName, HoldArgs;
    NoMore(f.held);
    if tc.args != "" && !c2.failed {
      ArgsFollow(env, c2, t, tc.args);
    }
  }

  lemma RouteSnoc(env: Env, pieces: seq<Piece>, piece: Piece)
    ensures Route(env, pieces + [piece]) == RouteOne(env, Route(env, pieces), piece)
  {
    assert (pieces + [piece])[..|pieces|] == pieces;
  }

  /** Routing the pieces of one more delta. */
  lemma RouteFeed(env: Env, f: Feed, tc: ToolDelta)
    ensures var g, r := FeedOne(f, tc), Route(env, f.pieces);
            var s := if IsBlank(g.name) then r else RouteHeld(env, f, g.name, r);
            Route(env, g.pieces) ==
              if IsBlank(g.name) || tc.args == "" then s else RouteOne(env, s, Piece(g.name, tc.args))
  {
    hide Route, RouteOne, IsBlank, MergeName;
    var g := FeedOne(f, tc);
    RouteSnoc(env, f.pieces, Piece(g.name, f.held));
    RouteSnoc(env, f.pieces, Piece(g.name, tc.args));
    RouteSnoc(env, f.pieces + [Piece(g.name, f.held)], Piece(g.name, tc.args));
  }

  /** The state of tool `t` is the one its own deltas alone would have led to. */
  ghost predicate Alone(env: Env, c: Conn, t: int) {
    var f := FeedOf(OwnDeltas(c.calls, t));
    Follows(env, c, t, f, Route(env, f.pieces))
  }

  lemma OwnOne(calls: seq<(int, ToolDelta)>, u: int, tc: ToolDelta, t: int)
    ensures OwnDeltas(calls + [(u, tc)], t) == OwnDeltas(calls, t) + if u == t then [tc] else []
    ensures u != t ==> OwnDeltas(calls + [(u, tc)], t) == OwnDeltas(calls, t)
    ensures u == t ==> FeedOf(OwnDeltas(calls + [(u, tc)], t)) == FeedOne(FeedOf(OwnDeltas(calls, t)), tc)
  {
    assert (calls + [(u, tc)])[..|calls|] == calls;
    var own := OwnDeltas(calls, t) + [tc];
    assert own[..|own| - 1] == OwnDeltas(calls, t);
  }

  lemma CallKeepsAlone(env: Env, c: Conn, tc: ToolDelta, t: int)
    requires Alone(env, c, t) && !ProcessToolCall(env, c, tc).failed
    ensures Alone(env, ProcessToolCall(env, c, tc), t)
  {
    var u := ResolveIndex(c.b, tc.index);
    ProcessToolCallLogs(env, c, tc);
    OwnOne(c.calls, u, tc, t);
    var f := FeedOf(OwnDeltas(c.calls, t));
    hide OwnDeltas, FeedOf, ProcessToolCall, FeedOne, Route, RouteHeld, IsBlank;
    if u == t {
      OwnCallFollows(env, c, tc, t, f, Route(env, f.pieces));
      RouteFeed(env, f, tc);
    } else {
      ProcessToolCallFrame(env, c, tc, t);
    }
  }

  lemma {:induction false} CallsKeepAlone(env: Env, c: Conn, tcs: seq<ToolDelta>, t: int)
    requires Alone(env, c, t) && !ProcessToolCalls(env, c, tcs).failed
    ensures Alone(env, ProcessToolCalls(env, c, tcs), t)
  {
    if tcs != [] {
      hide Alone, ProcessToolCall;
      CallsKeepAlone(env, c, tcs[..|tcs| - 1], t);
      CallKeepsAlone(env, ProcessToolCalls(env, c, tcs[..|tcs| - 1]), tcs[|tcs| - 1], t);
    }
  }

  lemma SameToolsAlone(env: Env, c: Conn, d: Conn, t: int)
    requires SameTools(c, d) && Alone(env, c, t)
    ensures Alone(env, d, t)
  {
    assert SoloOf(d, t) == SoloOf(c, t);
  }

  lemma NobodyAlone(env: Env, t: int)
    ensures Alone(env, NEW_CONN, t)
  {
  }

  lemma {:induction false} ChunksKeepAlone(env: Env, chunks: seq<Chunk>, t: int)
    requires !ProcessChunks(env, chunks).failed
    ensures Alone(env, ProcessChunks(env, chunks), t)
  {
    hide Alone;
    if chunks == [] {
      NobodyAlone(env, t);
    } else {
      var c, chunk := ProcessChunks(env, chunks[..|chunks| - 1]), chunks[|chunks| - 1];
      ChunksKeepAlone(env, chunks[..|chunks| - 1], t);
      if chunk.hasDelta {
        BeforeToolsTools(env, c, chunk);
        SameToolsAlone(env, c, BeforeTools(env, c, chunk), t);
        CallsKeepAlone(env, BeforeTools(env, c, chunk), chunk.tools, t);
      }
    }
  }

  // --- what the end of the response adds -----------------------------------------------------------

  /** The buffers are listed once each, in the order in which they came. */
  ghost predicate Listed(buffers: Buffers) {
    Distinct(buffers.keys) && forall t :: t in buffers.keys <==> t in buffers.texts
  }

  lemma {:induction false} WithoutOne(keys: seq<int>, t: int)
    requires Distinct(keys)
    ensures Distinct(Without(keys, t)) && forall u :: u in Without(keys, t) <==> u in keys && u != t
  {
    if keys != [] {
      var front, last := keys[..|keys| - 1], keys[|keys| - 1];
      WithoutOne(front, t);
      assert keys == front + [last] && last !in front;
      var rest := Without(front, t);
      assert last !in rest;
      assert Without(keys, t) == if last == t then rest else rest + [last];
    }
  }

  lemma PutListed(buffers: Buffers, t: int, text: string)
    requires Listed(buffers)
    ensures Listed(PutBuffer(buffers, t, text))
  {
  }

  lemma PopListed(buffers: Buffers, t: int)
    requires Listed(buffers)
    ensures Listed(PopBuffer(buffers, t))
  {
    WithoutOne(buffers.keys, t);
  }

  lemma EmitListed(env: Env, c: Conn, t: int, args: string)
    requires Listed(c.aliasBuffers)
    ensures Listed(EmitToolArg(env, c, t, args).aliasBuffers)
  {
    PutListed(c.aliasBuffers, t, BufferedText(c.aliasBuffers, t) + args);
    PopListed(c.aliasBuffers, t);
    hide Listed, PutBuffer, PopBuffer, EmitToolDelta, BufferTaskArgs;
  }

  lemma CallListed(env: Env, c: Conn, tc: ToolDelta)
    requires Listed(c.aliasBuffers)
    ensures Listed(ProcessToolCall(env, c, tc).aliasBuffers)
  {
    hide Listed, EmitToolArg, Register, HoldArgs, StartTool;
    var t := ResolveIndex(c.b, tc.index);
    var c1 := Registered(c, t, tc);
    var b := StartTool(c1.b, t, tc);
    if t in b.tools {
      EmitListed(env, c1.(b := PutTool(b, t, b.tools[t].(preStartArgs := ""))), t, b.tools[t].preStartArgs);
    }
    EmitListed(env, StartIfNamed(env, c1, t, tc), t, tc.args);
  }

  lemma {:induction false} CallsListed(env: Env, c: Conn, tcs: seq<ToolDelta>)
    requires Listed(c.aliasBuffers)
    ensures Listed(ProcessToolCalls(env, c, tcs).aliasBuffers)
  {
    if tcs != [] {
      hide Listed, ProcessToolCall;
      CallsListed(env, c, tcs[..|tcs| - 1]);
      CallListed(env, ProcessToolCalls(env, c, tcs[..|tcs| - 1]), tcs[|tcs| - 1]);
    }
  }

  lemma NothingListed()
    ensures Listed(NO_BUFFERS)
  {
  }

  lemma {:induction false} ChunksListed(env: Env, chunks: seq<Chunk>)
    ensures Listed(ProcessChunks(env, chunks).aliasBuffers)
  {
    hide Listed;
    if chunks == [] {
      NothingListed();
    } else {
      var c, chunk := ProcessChunks(env, chunks[..|chunks| - 1]), chunks[|chunks| - 1];
      ChunksListed(env, chunks[..|chunks| - 1]);
      if !c.failed && chunk.hasDelta {
        BeforeToolsTools(env, c, chunk);
        CallsListed(env, BeforeTools(env, c, chunk), chunk.tools);
      }
    }
  }

  lemma FlushAliasSolo(env: Env, c: Conn, u: int, t: int)
    requires t in c.b.tools
    ensures var solo := SoloOf(c, t);
            SoloOf(FlushAlias(env, c, u), t) ==
              if u == t then solo.(routed := FinishAlias(env, solo.name, solo.routed)) else solo
    ensures t in FlushAlias(env, c, u).b.tools
  {
    hide SoloOf, PopBuffer, PutTool;
    SoloFields(c, t);
    AliasSolo(c, u, "", t);
    var text := BufferedText(c.aliasBuffers, u);
    if text != "" && NeedsAliasFlush(env, c, u) {
      var restored := env.restore(c.b.tools[u].name, text);
      var json := if restored.Some? then restored.value else text;
      SentSolo(c.(aliasBuffers := PopBuffer(c.aliasBuffers, u)), u, json, t);
      DeltaKeepsTools(c.b, u, json, t);
    }
  }

  lemma DeltaKeepsTools(b: Builder, u: int, json: string, t: int)
    requires u in b.tools
    ensures t in EmitToolDelta(b, u, json).tools <==> t in b.tools
  {
  }

  lemma {:induction false} FlushAliasesSolo(env: Env, c: Conn, keys: seq<int>, t: int)
    requires t in c.b.tools && Distinct(keys)
    ensures var solo := SoloOf(c, t);
            SoloOf(FlushAliases(env, c, keys), t) ==
                if t in keys then solo.(routed := FinishAlias(env, solo.name, solo.routed)) else solo
    ensures t in FlushAliases(env, c, keys).b.tools
  {
    if keys != [] {
      hide SoloOf, FlushAlias;
      var front, u := keys[..|keys| - 1], keys[|keys| - 1];
      assert keys == front + [u];
      FlushAliasesSolo(env, c, front, t);
      FlushAliasSolo(env, FlushAliases(env, c, front), u, t);
    }
  }

  lemma {:induction false} FlushTasksSolo(b: Builder, keys: seq<int>, parse: string -> TaskParse, t: int)
    requires Distinct(keys)
    ensures var c := FlushTasks(b, keys, parse);
            && (t in c.tools <==> t in b.tools)
            && (t in b.tools ==> c.tools[t] == if t in keys then TaskFlushed(b.tools[t], parse) else b.tools[t])
  {
    if keys != [] {
      FlushTasksSolo(b, keys[..|keys| - 1], parse, t);
      assert keys == keys[..|keys| - 1] + [keys[|keys| - 1]];
    }
  }

  function TaskFlushed(st: ToolCallState, parse: string -> TaskParse): ToolCallState {
    if st.taskArgBuffer == "" || st.taskArgsEmitted then st
    else st.(taskArgBuffer := "", taskArgsEmitted := true,
             contents := st.contents + [TaskFlushJson(st.taskArgBuffer, parse)])
  }

  /** Draining adds exactly what is still kept back for the tool. */
  lemma DrainSolo(env: Env, c: Conn, t: int)
    requires Good(c.b) && Tidy(c) && Listed(c.aliasBuffers) && t in c.b.tools
    ensures var solo := SoloOf(c, t); var b := Drain(env, c).b;
            && t in b.tools && b.tools[t].started == solo.started
            && b.tools[t].contents == FinishTask(env, FinishAlias(env, solo.name, solo.routed)).contents
  {
    CompleteGood(env, c);
    CompleteTools(env, c);
    var d := Complete(env, c);
    assert SoloOf(d, t) == SoloOf(c, t);
    FlushAliasesGood(env, d, d.aliasBuffers.keys);
    FlushAliasesSolo(env, d, d.aliasBuffers.keys, t);
    var e := FlushAliases(env, d, d.aliasBuffers.keys);
    SoloFields(d, t);
    assert t !in d.aliasBuffers.keys ==> SoloOf(d, t).routed.alias == None;
    hide Complete, FlushAliases, FlushTasks;
    FlushTasksSolo(e.b, e.b.order, env.parseTask, t);
    TaskFlushedIs(env, e, t);
  }

  lemma TaskFlushedIs(env: Env, e: Conn, t: int)
    requires t in e.b.tools
    ensures TaskFlushed(e.b.tools[t], env.parseTask).contents == FinishTask(env, SoloOf(e, t).routed).contents
    ensures TaskFlushed(e.b.tools[t], env.parseTask).started == SoloOf(e, t).started
  {
  }

  // --- the theorem --------------------------------------------------------------------------------------

  lemma DrainKeepsUnknown(env: Env, c: Conn, t: int)
    requires Good(c.b) && Tidy(c) && t !in c.b.tools
    ensures t !in Drain(env, c).b.tools
  {
    CompleteTools(env, c);
    var d := Complete(env, c);
    FlushAliasesKeepTools(env, d, d.aliasBuffers.keys, t);
    var e := FlushAliases(env, d, d.aliasBuffers.keys);
    FlushTasksKeepTools(e.b, e.b.order, env.parseTask, t);
  }

  lemma {:induction false} FlushAliasesKeepTools(env: Env, c: Conn, keys: seq<int>, t: int)
    requires t !in c.b.tools
    ensures t !in FlushAliases(env, c, keys).b.tools
  {
    if keys != [] {
      FlushAliasesKeepTools(env, c, keys[..|keys| - 1], t);
    }
  }

  lemma {:induction false} FlushTasksKeepTools(b: Builder, keys: seq<int>, parse: string -> TaskParse, t: int)
    requires t !in b.tools
    ensures t !in FlushTasks(b, keys, parse).tools
  {
    if keys != [] {
      FlushTasksKeepTools(b, keys[..|keys| - 1], parse, t);
    }
  }

  lemma FinishedTools(env: Env, c: Conn)
    ensures FinishResponse(env, c).tools == Drain(env, c).b.tools
  {
    hide Drain;
    var b := Drain(env, c).b;
    StopToolsKeepsTools(CloseContentBlocks(b), CloseContentBlocks(b).order);
  }

  lemma {:induction false} StopToolsKeepsTools(b: Builder, keys: seq<int>)
    ensures StopTools(b, keys).tools == b.tools
  {
    if keys != [] {
      StopToolsKeepsTools(b, keys[..|keys| - 1]);
    }
  }

  /** In a response that finishes normally, what is sent for a tool depends only
      on that tool's own deltas, in their order, however they were interleaved
      with text and with other tools; its block starts exactly if the name they
      merge to is not blank. */
  lemma ToolStandsAlone(env: Env, chunks: seq<Chunk>, message: string, t: int)
    requires !ProcessChunks(env, chunks).failed
    ensures var own := OwnDeltas(ProcessChunks(env, chunks).calls, t);
            var r := StreamResponse(env, chunks, false, message);
            && (Started(r, t) <==> !IsBlank(FeedOf(own).name))
            && (Started(r, t) ==> DeltasOf(r.emitted, r.tools[t].blockIndex) == AsJson(SentFor(env, own)))
  {
    var c := ProcessChunks(env, chunks);
    ChunksKeepAlone(env, chunks, t);
    ChunksListed(env, chunks);
    ProcessChunksGood(env, chunks);
    ProcessChunksTidy(env, chunks);
    FinishFaithful(env, c);
    FinishedTools(env, c);
    var f := FeedOf(OwnDeltas(c.calls, t));
    assert SoloOf(c, t) == Solo(f.name, !IsBlank(f.name), f.held, Route(env, f.pieces));
    hide ProcessChunks, Drain, FinishResponse, Good, Tidy, Listed, FeedOf, Route, Alone, FinishTask, FinishAlias,
      IsBlank;
    if t in c.b.tools {
      DrainSolo(env, c, t);
    } else {
      DrainKeepsUnknown(env, c, t);
    }
  }

  // --- tools whose arguments pass through -------------------------------------------------------------------

  predicate PassesThrough(env: Env, name: string) {
    name != "Task" && !env.aliased(name)
  }

  lemma {:induction false} RoutePlain(env: Env, pieces: seq<Piece>)
    requires forall piece | piece in pieces :: PassesThrough(env, piece.name)
    ensures Route(env, pieces) == UNROUTED.(contents := TextsOf(pieces))
  {
    if pieces != [] {
      RoutePlain(env, pieces[..|pieces| - 1]);
    }
  }

  /** If the name merged so far is neither Task nor aliased whenever something is
      passed on, the block gets the fragments themselves, and together they are
      all the arguments; the name may arrive in any number of parts. */
  lemma PlainToolArguments(env: Env, chunks: seq<Chunk>, message: string, t: int)
    requires !ProcessChunks(env, chunks).failed
    requires var f := FeedOf(OwnDeltas(ProcessChunks(env, chunks).calls, t));
             !IsBlank(f.name) && forall piece | piece in f.pieces :: PassesThrough(env, piece.name)
    ensures var own := OwnDeltas(ProcessChunks(env, chunks).calls, t);
            var r := StreamResponse(env, chunks, false, message);
            var texts := TextsOf(FeedOf(own).pieces);
            && Started(r, t)
            && DeltasOf(r.emitted, r.tools[t].blockIndex) == AsJson(texts)
            && Concat(texts) == ArgsOf(own)
  {
    var own := OwnDeltas(ProcessChunks(env, chunks).calls, t);
    ToolStandsAlone(env, chunks, message, t);
    FragmentsAreConserved(own);
    RoutePlain(env, FeedOf(own).pieces);
    NoMore(Concat(TextsOf(FeedOf(own).pieces)));
  }

  const SPLIT_NAME: seq<ToolDelta> :=
    [ToolDelta(0, None, Some("Task"), "{\"a"), ToolDelta(0, None, Some("Create"), "\":1}")]

  lemma SplitNameFeed()
    ensures FeedOf(SPLIT_NAME) == Feed("TaskCreate", "", [Piece("Task", "{\"a"), Piece("TaskCreate", "\":1}")])
    ensures ArgsOf(SPLIT_NAME) == "{\"a\":1}"
  {
    var one := SPLIT_NAME[..1];
    assert one == [SPLIT_NAME[0]] && one[..0] == [];
    assert "Task"[0] == 'T' && "TaskCreate"[0] == 'T' && !IsSpace('T');
    assert !IsBlank("Task") && !IsBlank("TaskCreate");
    assert MergeName("Task", "Create") == "TaskCreate" by {
      assert "Create"[..4] == "Crea" && "Crea"[0] != "Task"[0];
    }
    assert FeedOf(one) == Feed("Task", "", [Piece("Task", "{\"a")]);
    assert ArgsOf(one) == "{\"a";
  }

  lemma SplitNameRoute(env: Env)
    requires env.parseTask("{\"a").NotJson? && !env.aliased("TaskCreate")
    ensures Route(env, [Piece("Task", "{\"a"), Piece("TaskCreate", "\":1}")]) == Routed(["\":1}"], "{\"a", false, None)
  {
    var a, b := Piece("Task", "{\"a"), Piece("TaskCreate", "\":1}");
    assert [a, b][..1] == [a] && [a][..0] == [];
    assert "" + "{\"a" == "{\"a";
    assert Route(env, [a]) == Routed([], "{\"a", false, None);
  }

  lemma SplitNameSent(env: Env)
    requires env.parseTask("{\"a").NotJson? && !env.aliased("TaskCreate")
    ensures SentFor(env, SPLIT_NAME) == ["\":1}", "{}"]
  {
    SplitNameFeed();
    SplitNameRoute(env);
    hide FeedOf, Route, ArgsOf;
  }

  /** A chunk of nothing but tool deltas. */
  function ToolChunk(tools: seq<ToolDelta>): Chunk {
    Chunk(true, "", "", "", tools)
  }

  lemma FirstPartPends(env: Env, c: Conn)
    requires c.b.tools == map[] && !c.failed && env.parseTask("{\"a").NotJson?
    ensures var d := ProcessToolCall(env, c, SPLIT_NAME[0]);
            && !d.failed && 0 in d.b.tools && d.b.tools[0].name == "Task" && d.b.tools[0].started
  {
    assert "Task"[0] == 'T' && !IsSpace('T') && !IsBlank("Task");
    assert "" + "{\"a" == "{\"a";
    var c1 := Registered(c, 0, SPLIT_NAME[0]);
    assert c1.b.tools[0] == NEW_TOOL.(name := "Task");
    var c2 := StartIfNamed(env, c1, 0, SPLIT_NAME[0]);
    assert c2.b.tools[0].name == "Task" && c2.b.tools[0].started && c2.b.tools[0].taskArgBuffer == "";
  }

  lemma SecondPartPasses(env: Env, c: Conn)
    requires !c.failed && 0 in c.b.tools && c.b.tools[0].name == "Task" && c.b.tools[0].started
             && !env.aliased("TaskCreate")
    ensures !ProcessToolCall(env, c, SPLIT_NAME[1]).failed
  {
    assert MergeName("Task", "Create") == "TaskCreate" by {
      assert "Create"[..4] == "Crea" && "Crea"[0] != "Task"[0];
    }
    var c1 := Registered(c, 0, SPLIT_NAME[1]);
    assert c1.b.tools[0].name == "TaskCreate" && Started(c1.b, 0);
  }

  /** A response of one chunk with two deltas of tool 0, neither of which raises. */
  lemma TwoDeltasRun(env: Env, x: ToolDelta, y: ToolDelta)
    requires x.index == 0 && y.index == 0
    requires forall c: Conn | c.b.tools == map[] && !c.failed ::
               var d := ProcessToolCall(env, c, x); !d.failed && !ProcessToolCall(env, d, y).failed
    ensures var c := ProcessChunks(env, [ToolChunk([x, y])]); !c.failed && OwnDeltas(c.calls, 0) == [x, y]
  {
    hide OwnDeltas, ProcessToolCall, BeforeTools;
    var chunk := ToolChunk([x, y]);
    var d := BeforeTools(env, NEW_CONN, chunk);
    BeforeToolsTools(env, NEW_CONN, chunk);
    var e := ProcessToolCall(env, d, x);
    assert !e.failed && !ProcessToolCall(env, e, y).failed;
    assert [chunk][..0] == [] && [x, y][..1] == [x] && [x][..0] == [];
    assert ProcessToolCalls(env, d, [x]) == e;
    assert ProcessToolCalls(env, d, [x, y]) == ProcessToolCall(env, e, y);
    assert ProcessChunk(env, NEW_CONN, chunk) == ProcessToolCalls(env, d, [x, y]);
    hide ProcessToolCalls, ProcessChunk;
    assert ProcessChunks(env, [chunk]) == ProcessToolCall(env, e, y);
    hide ProcessChunks;
    TwoDeltasLog(env, d, x, y);
  }

  lemma TwoDeltasLog(env: Env, d: Conn, x: ToolDelta, y: ToolDelta)
    requires x.index == 0 && y.index == 0 && d.calls == []
    ensures OwnDeltas(ProcessToolCall(env, ProcessToolCall(env, d, x), y).calls, 0) == [x, y]
  {
    hide ProcessToolCall;
    var e := ProcessToolCall(env, d, x);
    ProcessToolCallLogs(env, d, x);
    ProcessToolCallLogs(env, e, y);
    hide FeedOf, FeedOne;
    OwnOne([], 0, x, 0);
    OwnOne([(0, x)], 0, y, 0);
    assert ProcessToolCall(env, e, y).calls == [] + [(0, x)] + [(0, y)];
  }

  lemma SplitNameRuns(env: Env)
    requires env.parseTask("{\"a").NotJson? && !env.aliased("TaskCreate")
    ensures var c := ProcessChunks(env, [ToolChunk(SPLIT_NAME)]); !c.failed && OwnDeltas(c.calls, 0) == SPLIT_NAME
  {
    forall c: Conn | c.b.tools == map[] && !c.failed
      ensures var d := ProcessToolCall(env, c, SPLIT_NAME[0]);
              !d.failed && !ProcessToolCall(env, d, SPLIT_NAME[1]).failed
    {
      hide ProcessToolCall;
      FirstPartPends(env, c);
      SecondPartPasses(env, ProcessToolCall(env, c, SPLIT_NAME[0]));
    }
    hide ProcessToolCall, ProcessChunks, OwnDeltas;
    TwoDeltasRun(env, SPLIT_NAME[0], SPLIT_NAME[1]);
  }

  /** The condition is needed: when a name begins as Task and grows on, the
      arguments that came with the first part are replaced by an empty object. */
  lemma SplitNameLosesArguments(env: Env, message: string)
    requires env.parseTask("{\"a").NotJson? && !env.aliased("TaskCreate")
    ensures var r := StreamResponse(env, [ToolChunk(SPLIT_NAME)], false, message);
            && Started(r, 0)
            && DeltasOf(r.emitted, r.tools[0].blockIndex) == AsJson(["\":1}", "{}"])
            && ArgsOf(OwnDeltas(ProcessChunks(env, [ToolChunk(SPLIT_NAME)]).calls, 0)) == "{\"a\":1}"
  {
    SplitNameRuns(env);
    SplitNameFeed();
    SplitNameSent(env);
    assert !IsBlank("TaskCreate") by {
      assert "TaskCreate"[0] == 'T' && !IsSpace('T');
    }
    hide FeedOf, SentFor, ProcessChunks, StreamResponse, IsBlank, DeltasOf, OwnDeltas, ArgsOf;
    ToolStandsAlone(env, [ToolChunk(SPLIT_NAME)], message, 0);
  }

  // --- Task tools -------------------------------------------------------------------------------------------

  /** The re-encoded object of the first prefix of the pieces that parses as one. */
  function FirstObject(env: Env, texts: seq<string>): Option<string> {
    if texts == [] then None
    else
      var before, parsed := FirstObject(env, texts[..|texts| - 1]), env.parseTask(Concat(texts));
      if before.Some? then before else if parsed.Object? then Some(parsed.encoded) else None
  }

  function TaskSent(env: Env, texts: seq<string>): seq<string> {
    if texts == [] then [] else if FirstObject(env, texts).Some? then [FirstObject(env, texts).value] else ["{}"]
  }

  lemma {:induction false} RouteTask(env: Env, pieces: seq<Piece>)
    requires forall piece | piece in pieces :: piece.name == "Task"
    ensures var found := FirstObject(env, TextsOf(pieces));
            Route(env, pieces) ==
              if found.Some? then Routed([found.value], "", true, None)
                  else Routed([], Concat(TextsOf(pieces)), false, None)
  {
    if pieces != [] {
      var front, last := pieces[..|pieces| - 1], pieces[|pieces| - 1];
      RouteTask(env, front);
      OnePiece(front, last);
      assert pieces == front + [last];
      assert TextsOf(pieces)[..|TextsOf(pieces)| - 1] == TextsOf(front);
      assert last in pieces;
    }
  }

  lemma {:induction false} PiecesAreNotEmpty(deltas: seq<ToolDelta>)
    ensures forall piece | piece in FeedOf(deltas).pieces :: piece.text != ""
  {
    if deltas != [] {
      PiecesAreNotEmpty(deltas[..|deltas| - 1]);
    }
  }

  lemma TaskFinished(env: Env, pieces: seq<Piece>)
    requires forall piece | piece in pieces :: piece.name == "Task" && piece.text != ""
    ensures FinishTask(env, FinishAlias(env, "Task", Route(env, pieces))).contents == TaskSent(env, TextsOf(pieces))
  {
    RouteTask(env, pieces);
    SomethingPassed(pieces);
    var texts := TextsOf(pieces);
    assert FirstObject(env, texts).None? && texts != [] ==> !env.parseTask(Concat(texts)).Object?;
    hide Route, TextsOf, FirstObject, Concat;
  }

  /** A tool that is called Task whenever something is passed on gets one JSON
      delta if it had any arguments: the first complete object, with
      run_in_background off, or an empty object if none ever becomes complete. */
  lemma TaskToolArguments(env: Env, chunks: seq<Chunk>, message: string, t: int)
    requires !ProcessChunks(env, chunks).failed
    requires var f := FeedOf(OwnDeltas(ProcessChunks(env, chunks).calls, t));
             f.name == "Task" && forall piece | piece in f.pieces :: piece.name == "Task"
    ensures var own := OwnDeltas(ProcessChunks(env, chunks).calls, t);
            var r := StreamResponse(env, chunks, false, message);
            && Started(r, t)
            && DeltasOf(r.emitted, r.tools[t].blockIndex) == AsJson(TaskSent(env, TextsOf(FeedOf(own).pieces)))
            && |TaskSent(env, TextsOf(FeedOf(own).pieces))| == if ArgsOf(own) == "" then 0 else 1
  {
    var own := OwnDeltas(ProcessChunks(env, chunks).calls, t);
    assert !IsBlank("Task") by {
      assert "Task"[0] == 'T' && !IsSpace('T');
    }
    ToolStandsAlone(env, chunks, message, t);
    FragmentsAreConserved(own);
    PiecesAreNotEmpty(own);
    TaskFinished(env, FeedOf(own).pieces);
    SomethingPassed(FeedOf(own).pieces);
    NoMore(Concat(TextsOf(FeedOf(own).pieces)));
  }

  lemma SomethingPassed(pieces: seq<Piece>)
    requires forall piece | piece in pieces :: piece.text != ""
    ensures Concat(TextsOf(pieces)) == "" <==> TextsOf(pieces) == []
  {
    if pieces != [] {
      var front, last := pieces[..|pieces| - 1], pieces[|pieces| - 1];
      OnePiece(front, last);
      assert pieces == front + [last] && last in pieces;
    }
  }

  // --- a name in parts ------------------------------------------------------------------------------------

  /** The pieces passed on under the name Task are those from `a` to `b`. */
  predicate IsStretch(pieces: seq<Piece>, a: nat, b: nat) {
    a <= b <= |pieces| && forall i | 0 <= i < |pieces| :: pieces[i].name == "Task" <==> a <= i < b
  }

  /** A name that has grown on from Task never becomes Task again. */
  predicate Shaped(name: string, pieces: seq<Piece>, a: nat, b: nat) {
    && IsStretch(pieces, a, b)
    && (a == b ==> b == |pieces|)
    && (a < b ==> StartsWith(name, "Task"))
    && (b < |pieces| ==> name != "Task")
  }

  lemma PrefixGrows(prev: string, name: string)
    requires StartsWith(prev, "Task")
    ensures var merged := MergeName(prev, name);
            StartsWith(merged, "Task") && (prev != "Task" ==> merged != "Task")
  {
    var merged := MergeName(prev, name);
    assert merged[..|prev|] == prev;
    assert merged[..4] == prev[..4];
    assert prev != "Task" ==> |prev| > 4;
  }

  lemma StretchGrows(name: string, pieces: seq<Piece>, text: string, a: nat, b: nat) returns (c: nat, d: nat)
    requires Shaped(name, pieces, a, b)
    ensures Shaped(name, pieces + [Piece(name, text)], c, d)
  {
    var more := pieces + [Piece(name, text)];
    assert forall i | 0 <= i < |pieces| :: more[i] == pieces[i];
    c, d := if name != "Task" && a == b then a + 1 else a, if name == "Task" || a == b then b + 1 else b;
  }

  lemma {:induction false} TaskIsOneStretch(deltas: seq<ToolDelta>) returns (a: nat, b: nat)
    ensures Shaped(FeedOf(deltas).name, FeedOf(deltas).pieces, a, b)
  {
    a, b := 0, 0;
    if deltas != [] {
      var f, tc := FeedOf(deltas[..|deltas| - 1]), deltas[|deltas| - 1];
      a, b := TaskIsOneStretch(deltas[..|deltas| - 1]);
      var name := FeedOne(f, tc).name;
      if tc.name.Some? && a < b {
        PrefixGrows(f.name, tc.name.value);
      }
      hide MergeName, StartsWith, IsBlank;
      assert Shaped(name, f.pieces, a, b);
      if !IsBlank(name) {
        hide Shaped;
        var released := if f.held != "" then f.pieces + [Piece(name, f.held)] else f.pieces;
        if f.held != "" {
          a, b := StretchGrows(name, f.pieces, f.held, a, b);
        }
        if tc.args != "" {
          a, b := StretchGrows(name, released, tc.args, a, b);
        }
      }
    }
  }

  ghost predicate Unaliased(env: Env, pieces: seq<Piece>) {
    forall piece | piece in pieces && piece.name != "Task" :: !env.aliased(piece.name)
  }

  lemma {:induction false} TextsAt(pieces: seq<Piece>)
    ensures |TextsOf(pieces)| == |pieces| && forall i | 0 <= i < |pieces| :: TextsOf(pieces)[i] == pieces[i].text
  {
    if pieces != [] {
      TextsAt(pieces[..|pieces| - 1]);
    }
  }

  lemma {:induction false} ConcatAppend(a: seq<string>, b: seq<string>)
    ensures Concat(a + b) == Concat(a) + Concat(b)
  {
    if b == [] {
      assert a + b == a;
    } else {
      var front, last := b[..|b| - 1], b[|b| - 1];
      assert (a + b)[..|a + b| - 1] == a + front;
      ConcatAppend(a, front);
      assert Concat(a) + Concat(front) + last == Concat(a) + (Concat(front) + last);
    }
  }

  /** What `RouteOne` has done by the end of the first `n` pieces. */
  function RoutedUpTo(env: Env, texts: seq<string>, a: nat, b: nat, n: nat): Routed
    requires a <= b && n <= |texts|
  {
    if n <= a then UNROUTED.(contents := texts[..n])
    else
      var stretch := if n <= b then texts[a..n] else texts[a..b];
      var after := if n <= b then [] else texts[b..n];
      var found := FirstObject(env, stretch);
      if found.Some? then Routed(texts[..a] + [found.value] + after, "", true, None)
      else Routed(texts[..a] + after, Concat(stretch), false, None)
  }

  lemma FirstObjectOne(env: Env, texts: seq<string>, text: string)
    ensures Concat(texts + [text]) == Concat(texts) + text
    ensures var before, parsed := FirstObject(env, texts), env.parseTask(Concat(texts) + text);
            FirstObject(env, texts + [text]) ==
              if before.Some? then before else if parsed.Object? then Some(parsed.encoded) else None
  {
    assert (texts + [text])[..|texts|] == texts;
  }

  lemma InStretch(env: Env, texts: seq<string>, a: nat, b: nat, n: nat, piece: Piece)
    requires a <= n < b && n < |texts| && piece == Piece("Task", texts[n])
    ensures RouteOne(env, RoutedUpTo(env, texts, a, b, n), piece) == RoutedUpTo(env, texts, a, b, n + 1)
  {
    assert texts[a..n + 1] == texts[a..n] + [texts[n]];
    FirstObjectOne(env, texts[a..n], texts[n]);
    assert n == a ==> texts[a..n] == [] && FirstObject(env, []) == None && Concat([]) == "";
    assert texts[..a] + [] == texts[..a];
    hide FirstObject, Concat;
    assert RoutedUpTo(env, texts, a, b, n) ==
             if FirstObject(env, texts[a..n]).Some?
             then Routed(texts[..a] + [FirstObject(env, texts[a..n]).value] + [], "", true, None)
             else Routed(texts[..a], Concat(texts[a..n]), false, None);
  }

  lemma RouteStretchOne(env: Env, texts: seq<string>, a: nat, b: nat, n: nat, piece: Piece)
    requires a <= b && n < |texts| && piece.text == texts[n]
    requires piece.name == "Task" <==> a <= n < b
    requires piece.name != "Task" ==> !env.aliased(piece.name)
    ensures RouteOne(env, RoutedUpTo(env, texts, a, b, n), piece) == RoutedUpTo(env, texts, a, b, n + 1)
  {
    if n < a {
      assert texts[..n] + [texts[n]] == texts[..n + 1];
    } else if n < b {
      InStretch(env, texts, a, b, n, piece);
    } else {
      assert texts[b..n] + [texts[n]] == texts[b..n + 1];
      assert n == b ==> texts[b..n] == [];
      AfterStretch(env, texts, a, b, n);
    }
  }

  /** Behind the stretch, or behind where it would be, only the text is added. */
  lemma AfterStretch(env: Env, texts: seq<string>, a: nat, b: nat, n: nat)
    requires a <= b <= n < |texts|
    ensures var r := RoutedUpTo(env, texts, a, b, n);
            RoutedUpTo(env, texts, a, b, n + 1) == r.(contents := r.contents + [texts[n]])
  {
    assert texts[b..n] + [texts[n]] == texts[b..n + 1];
    assert texts[..n] + [texts[n]] == texts[..n + 1];
    hide Concat;
    var found := FirstObject(env, texts[a..b]);
    if found.Some? {
      assert texts[..a] + [found.value] + texts[b..n] + [texts[n]] == texts[..a] + [found.value] + texts[b..n + 1];
    } else {
      assert texts[..a] + texts[b..n] + [texts[n]] == texts[..a] + texts[b..n + 1];
    }
    assert n == a ==> texts[a..b] == [] && texts[b..n] == [] && texts[..a] + [] == texts[..a];
  }

  lemma {:induction false} RouteStretch(env: Env, pieces: seq<Piece>, a: nat, b: nat, n: nat)
    requires IsStretch(pieces, a, b) && Unaliased(env, pieces) && n <= |pieces|
    ensures |TextsOf(pieces)| == |pieces|
    ensures Route(env, pieces[..n]) == RoutedUpTo(env, TextsOf(pieces), a, b, n)
  {
    TextsAt(pieces);
    if n > 0 {
      RouteStretch(env, pieces, a, b, n - 1);
      assert pieces[..n][..n - 1] == pieces[..n - 1] && pieces[n - 1] in pieces;
      hide RoutedUpTo, RouteOne, TextsOf;
      RouteStretchOne(env, TextsOf(pieces), a, b, n - 1, pieces[n - 1]);
    }
  }

  /** What is sent when the pieces from `a` to `b` are passed on as Task: the
      first object they make takes their place, or an empty object comes last. */
  function SentAround(env: Env, texts: seq<string>, a: nat, b: nat): seq<string>
    requires a <= b <= |texts|
  {
    var found := FirstObject(env, texts[a..b]);
    if found.Some? then texts[..a] + [found.value] + texts[b..]
    else texts[..a] + texts[b..] + if a == b then [] else ["{}"]
  }

  lemma {:induction false} NoObjectYet(env: Env, texts: seq<string>)
    requires FirstObject(env, texts).None? && texts != []
    ensures !env.parseTask(Concat(texts)).Object?
  {
  }

  lemma {:induction false} ConcatIsEmpty(texts: seq<string>)
    requires forall text | text in texts :: text != ""
    ensures Concat(texts) == "" <==> texts == []
  {
    if texts != [] {
      assert texts[|texts| - 1] in texts;
    }
  }

  lemma StretchIsEmpty(texts: seq<string>, a: nat, b: nat)
    requires a <= b <= |texts| && forall text | text in texts :: text != ""
    ensures Concat(texts[a..b]) == "" <==> a == b
  {
    forall text | text in texts[a..b]
      ensures text != ""
    {
      assert text in texts;
    }
    ConcatIsEmpty(texts[a..b]);
  }

  lemma FlushEnds(env: Env, texts: seq<string>, a: nat, b: nat, name: string)
    requires a <= b <= |texts| && (Concat(texts[a..b]) == "" <==> a == b)
    ensures FinishTask(env, FinishAlias(env, name, RoutedUpTo(env, texts, a, b, |texts|))).contents ==
              SentAround(env, texts, a, b)
  {
    var r := RoutedUpTo(env, texts, a, b, |texts|);
    assert texts[..|texts|] == texts && texts[b..|texts|] == texts[b..];
    assert texts[..a] + texts[a..] == texts && (b == |texts| ==> texts[b..] == [] && texts[..a] + [] == texts[..a]);
    assert texts[..a] + texts[b..] + [] == texts[..a] + texts[b..];
    if FirstObject(env, texts[a..b]).None? && a < b {
      NoObjectYet(env, texts[a..b]);
    }
    assert a == b ==> texts[a..b] == [];
    hide Concat;
    if FirstObject(env, texts[a..b]).Some? {
      assert r.contents == texts[..a] + [FirstObject(env, texts[a..b]).value] + texts[b..];
    } else {
      assert r.contents == texts[..a] + texts[b..] && (r.task == "" <==> a == b) && !r.taskDone && r.alias.None?;
    }
  }

  lemma RouteEnds(env: Env, pieces: seq<Piece>, a: nat, b: nat, name: string)
    requires IsStretch(pieces, a, b) && Unaliased(env, pieces)
    requires forall piece | piece in pieces :: piece.text != ""
    ensures |TextsOf(pieces)| == |pieces|
    ensures FinishTask(env, FinishAlias(env, name, Route(env, pieces))).contents ==
              SentAround(env, TextsOf(pieces), a, b)
  {
    var texts := TextsOf(pieces);
    TextsAt(pieces);
    assert pieces[..|pieces|] == pieces;
    RouteStretch(env, pieces, a, b, |pieces|);
    forall text | text in texts
      ensures text != ""
    {
      var i :| 0 <= i < |texts| && text == texts[i];
      assert pieces[i] in pieces;
    }
    hide TextsOf, Route, FinishTask, FinishAlias, RoutedUpTo, SentAround;
    StretchIsEmpty(texts, a, b);
    FlushEnds(env, texts, a, b, name);
  }

  /** The pieces go out unchanged exactly when none is passed on as Task, or a
      single one that is an object and encodes to itself. */
  lemma PiecesUnchangedExactlyWhen(env: Env, texts: seq<string>, a: nat, b: nat)
    requires a <= b <= |texts| && env.parseTask("{}").Object?
    ensures SentAround(env, texts, a, b) == texts <==>
              a == b || (b == a + 1 && env.parseTask(texts[a]) == Object(texts[a]))
  {
    var sent, found := SentAround(env, texts, a, b), FirstObject(env, texts[a..b]);
    if a == b {
      assert texts[..a] + texts[b..] == texts;
    } else if b == a + 1 {
      var single := texts[a..b];
      assert single == [] + [texts[a]];
      FirstObjectOne(env, [], texts[a]);
      NoMore(texts[a]);
      assert texts == texts[..a] + [texts[a]] + texts[b..];
      if found.Some? {
        assert sent[a] == found.value;
      } else if sent == texts {
        ShiftedIsConstant(texts, a, "{}");
      }
    } else {
      assert |sent| < |texts|;
    }
  }

  lemma {:induction false} ShiftedIsConstant(texts: seq<string>, a: nat, last: string)
    requires a < |texts| && texts == texts[..a] + texts[a + 1..] + [last]
    ensures texts[a] == last
    decreases |texts| - a
  {
    var moved := texts[..a] + texts[a + 1..] + [last];
    if a == |texts| - 1 {
      assert moved[a] == last;
    } else {
      assert texts[a] == moved[a] == texts[a + 1];
      assert texts[..a + 1] == texts[..a] + [texts[a + 1]];
      assert texts[a + 1..] == [texts[a + 1]] + texts[a + 2..];
      assert texts == texts[..a + 1] + texts[a + 2..] + [last];
      ShiftedIsConstant(texts, a + 1, last);
    }
  }

  /** What can be moved behind `p` to give "{}" is this or its reversal. */
  lemma Turned(t: string, p: string)
    requires p + "{}" == t + p
    ensures t == "{}" || t == "}{"
  {
    assert multiset(p + "{}") == multiset(p) + multiset("{}");
    assert multiset(t + p) == multiset(t) + multiset(p);
    forall c
      ensures multiset(t)[c] == multiset("{}")[c]
    {
      assert (multiset(t) + multiset(p))[c] == (multiset(p) + multiset("{}"))[c];
    }
    assert multiset("{}") == multiset{'{', '}'};
    assert |t| == 2 && t == [t[0], t[1]];
    assert t[0] in multiset(t) && t[1] in multiset(t);
    assert multiset(t)['{'] == 1 && multiset(t)['}'] == 1;
  }

  /** What Task keeps of the arguments: all, when they make an object that encodes
      to themselves; otherwise only a freak of braces is repaired by the empty
      object that comes last. */
  predicate TaskKeeps(env: Env, stretch: seq<string>, after: string) {
    var found, whole := FirstObject(env, stretch), Concat(stretch);
    || stretch == [] || found == Some(whole)
    || (found.None? && whole == "}{" && after + "{}" == "}{" + after)
  }

  lemma SplitInThree<T>(s: seq<T>, a: nat, b: nat)
    requires a <= b <= |s|
    ensures s == s[..a] + (s[a..b] + s[b..])
  {
  }

  lemma ThreeParts(texts: seq<string>, a: nat, b: nat)
    requires a <= b <= |texts|
    ensures Concat(texts) == Concat(texts[..a]) + (Concat(texts[a..b]) + Concat(texts[b..]))
  {
    hide Concat;
    SplitInThree(texts, a, b);
    ConcatAppend(texts[..a], texts[a..b] + texts[b..]);
    ConcatAppend(texts[a..b], texts[b..]);
  }

  lemma ConcatOne(text: string)
    ensures Concat([text]) == text
  {
    assert [text][..0] == [];
  }

  lemma SentConcat(env: Env, texts: seq<string>, a: nat, b: nat)
    requires a <= b <= |texts|
    ensures var found, after := FirstObject(env, texts[a..b]), Concat(texts[b..]);
            Concat(SentAround(env, texts, a, b)) ==
              Concat(texts[..a]) + (if found.Some? then found.value + after else if a == b then after else after + "{}")
  {
    hide FirstObject, Concat;
    var before, after, found := texts[..a], texts[b..], FirstObject(env, texts[a..b]);
    if found.Some? {
      ConcatAppend(before + [found.value], after);
      ConcatAppend(before, [found.value]);
      ConcatOne(found.value);
    } else if a == b {
      ConcatAppend(before, after);
      assert before + after + [] == before + after;
    } else {
      ConcatAppend(before + after, ["{}"]);
      ConcatAppend(before, after);
      ConcatOne("{}");
    }
  }

  lemma SameEnds<T(!new)>(p: seq<T>, x: seq<T>, y: seq<T>, q: seq<T>)
    ensures p + x == p + y <==> x == y
    ensures x + q == y + q <==> x == y
  {
    if p + x == p + y {
      assert x == (p + x)[|p|..] && y == (p + y)[|p|..];
    }
    if x + q == y + q {
      assert x == (x + q)[..|x|] && y == (y + q)[..|x|];
    }
  }

  /** All the arguments arrive exactly when Task keeps what it gets. */
  lemma ArgumentsKeptExactlyWhen(env: Env, texts: seq<string>, a: nat, b: nat)
    requires a <= b <= |texts| && env.parseTask("{}").Object?
    ensures Concat(SentAround(env, texts, a, b)) == Concat(texts) <==>
              TaskKeeps(env, texts[a..b], Concat(texts[b..]))
  {
    var found, whole, after := FirstObject(env, texts[a..b]), Concat(texts[a..b]), Concat(texts[b..]);
    SentConcat(env, texts, a, b);
    ThreeParts(texts, a, b);
    if found.None? && a < b {
      NoObjectYet(env, texts[a..b]);
      SameEnds(Concat(texts[..a]), after + "{}", whole + after, after);
      if after + "{}" == whole + after {
        Turned(whole, after);
      }
    } else if found.Some? {
      SameEnds(Concat(texts[..a]), found.value + after, whole + after, after);
      SameEnds("", found.value, whole, after);
    } else {
      assert texts[a..b] == [] && "" + after == after;
    }
  }

  /** What is sent for a tool without aliases, whatever parts its name comes in.
      The pieces passed on as Task are one stretch of all; the first object that
      they make takes their place, or an empty object comes last.  So many deltas
      are sent; they are the pieces, or at least all the arguments, exactly then. */
  lemma UnaliasedToolArguments(env: Env, chunks: seq<Chunk>, message: string, t: int) returns (a: nat, b: nat)
    requires !ProcessChunks(env, chunks).failed && env.parseTask("{}").Object?
    requires var f := FeedOf(OwnDeltas(ProcessChunks(env, chunks).calls, t));
             !IsBlank(f.name) && Unaliased(env, f.pieces)
    ensures var own, r := OwnDeltas(ProcessChunks(env, chunks).calls, t), StreamResponse(env, chunks, false, message);
            var pieces := FeedOf(own).pieces;
            var texts := TextsOf(pieces);
            && IsStretch(pieces, a, b) && |texts| == |pieces| && Concat(texts) == ArgsOf(own) && Started(r, t)
            && var sent := SentAround(env, texts, a, b);
               && DeltasOf(r.emitted, r.tools[t].blockIndex) == AsJson(sent)
               && |sent| == |pieces| - (b - a) + (if a < b then 1 else 0)
               && (|sent| == 1 <==> |pieces| == 1 || (a == 0 < b == |pieces|))
               && (sent == texts <==> a == b || (b == a + 1 && env.parseTask(texts[a]) == Object(texts[a])))
               && (Concat(sent) == ArgsOf(own) <==> TaskKeeps(env, texts[a..b], Concat(texts[b..])))
  {
    var own := OwnDeltas(ProcessChunks(env, chunks).calls, t);
    var f := FeedOf(own);
    a, b := TaskIsOneStretch(own);
    ToolStandsAlone(env, chunks, message, t);
    FragmentsAreConserved(own);
    NoMore(Concat(TextsOf(f.pieces)));
    PiecesAreNotEmpty(own);
    RouteEnds(env, f.pieces, a, b, f.name);
    PiecesUnchangedExactlyWhen(env, TextsOf(f.pieces), a, b);
    ArgumentsKeptExactlyWhen(env, TextsOf(f.pieces), a, b);
    SentCounted(env, TextsOf(f.pieces), a, b);
  }

  lemma SentCounted(env: Env, texts: seq<string>, a: nat, b: nat)
    requires a <= b <= |texts|
    ensures |SentAround(env, texts, a, b)| == |texts| - (b - a) + (if a < b then 1 else 0)
  {
    assert a == b ==> texts[a..b] == [];
  }

  const SPLIT_TASK: seq<ToolDelta> := [ToolDelta(0, None, Some("Ta"), "{"), ToolDelta(0, None, Some("sk"), "}")]

  lemma SplitTaskFeed()
    ensures FeedOf(SPLIT_TASK) == Feed("Task", "", [Piece("Ta", "{"), Piece("Task", "}")])
  {
    var one := SPLIT_TASK[..1];
    assert one == [SPLIT_TASK[0]] && one[..0] == [];
    assert "Ta"[0] == 'T' && "Task"[0] == 'T' && !IsSpace('T');
    assert !IsBlank("Ta") && !IsBlank("Task");
    assert MergeName("Ta", "sk") == "Task" by {
      assert "sk"[0] != "Ta"[0];
    }
    assert FeedOf(one) == Feed("Ta", "", [Piece("Ta", "{")]);
  }

  lemma SplitTaskSent(env: Env)
    requires env.parseTask("}").NotJson? && !env.aliased("Ta")
    ensures SentFor(env, SPLIT_TASK) == ["{", "{}"]
  {
    SplitTaskFeed();
    var x, y := Piece("Ta", "{"), Piece("Task", "}");
    assert [x, y][..1] == [x] && [x][..0] == [];
    assert "" + "}" == "}";
    assert Route(env, [x]) == Routed(["{"], "", false, None);
    assert Route(env, [x, y]) == Routed(["{"], "}", false, None);
    hide FeedOf, Route;
  }

  lemma SplitTaskFirst(env: Env, c: Conn)
    requires c.b.tools == map[] && !c.failed && !env.aliased("Ta")
    ensures var d := ProcessToolCall(env, c, SPLIT_TASK[0]);
            && !d.failed && 0 in d.b.tools && d.b.tools[0].name == "Ta" && d.b.tools[0].started
            && d.b.tools[0].taskArgBuffer == "" && !d.b.tools[0].taskArgsEmitted
  {
    assert "Ta"[0] == 'T' && !IsSpace('T') && !IsBlank("Ta");
    var c1 := Registered(c, 0, SPLIT_TASK[0]);
    assert c1.b.tools[0] == NEW_TOOL.(name := "Ta");
    var c2 := StartIfNamed(env, c1, 0, SPLIT_TASK[0]);
    assert c2.b.tools[0].name == "Ta" && c2.b.tools[0].started;
  }

  lemma SplitTaskSecond(env: Env, c: Conn)
    requires !c.failed && 0 in c.b.tools && c.b.tools[0].name == "Ta" && c.b.tools[0].started
    requires c.b.tools[0].taskArgBuffer == "" && env.parseTask("}").NotJson?
    ensures !ProcessToolCall(env, c, SPLIT_TASK[1]).failed
  {
    assert MergeName("Ta", "sk") == "Task" by {
      assert "sk"[0] != "Ta"[0];
    }
    assert "" + "}" == "}";
    var c1 := Registered(c, 0, SPLIT_TASK[1]);
    assert c1.b.tools[0].name == "Task" && Started(c1.b, 0);
  }

  /** A tool may end as Task and yet get two deltas. */
  lemma SplitTaskGetsTwoDeltas(env: Env, message: string)
    requires env.parseTask("}").NotJson? && !env.aliased("Ta")
    ensures var r := StreamResponse(env, [ToolChunk(SPLIT_TASK)], false, message);
            && Started(r, 0)
            && FeedOf(OwnDeltas(ProcessChunks(env, [ToolChunk(SPLIT_TASK)]).calls, 0)).name == "Task"
            && DeltasOf(r.emitted, r.tools[0].blockIndex) == AsJson(["{", "{}"])
  {
    forall c: Conn | c.b.tools == map[] && !c.failed
      ensures var d := ProcessToolCall(env, c, SPLIT_TASK[0]);
              !d.failed && !ProcessToolCall(env, d, SPLIT_TASK[1]).failed
    {
      hide ProcessToolCall;
      SplitTaskFirst(env, c);
      SplitTaskSecond(env, ProcessToolCall(env, c, SPLIT_TASK[0]));
    }
    hide ProcessToolCall, ProcessChunks, OwnDeltas, FeedOf, SentFor, StreamResponse, DeltasOf;
    TwoDeltasRun(env, SPLIT_TASK[0], SPLIT_TASK[1]);
    SplitTaskFeed();
    SplitTaskSent(env);
    assert !IsBlank("Task") by {
      assert "Task"[0] == 'T' && !IsSpace('T');
    }
    hide IsBlank;
    ToolStandsAlone(env, [ToolChunk(SPLIT_TASK)], message, 0);
  }

  // --- the flush of Task buffers cannot fail -------------------------------------------------------------

  ghost predicate TaskPending(env: Env, st: ToolCallState) {
    st.taskArgBuffer != "" ==> env.parseTask(st.taskArgBuffer).NotJson? && !st.taskArgsEmitted
  }

  /** Every buffer a flush would look at failed to parse when it was last extended. */
  ghost predicate AllPending(env: Env, b: Builder) {
    forall t | t in b.tools :: TaskPending(env, b.tools[t])
  }

  lemma EmitToolArgPending(env: Env, c: Conn, t: int, args: string)
    requires AllPending(env, c.b)
    ensures var d := EmitToolArg(env, c, t, args); !d.failed ==> AllPending(env, d.b)
  {
    hide EmitToolArg, TaskPending;
    var d := EmitToolArg(env, c, t, args);
    forall u | u in d.b.tools && !d.failed
      ensures TaskPending(env, d.b.tools[u])
    {
      if u != t {
        EmitToolArgFrame(env, c, t, args, u);
        EmitKeepsOthers(env, c, t, args, u);
      } else if t in c.b.tools {
        EmitToolArgOwnPending(env, c, t, args);
      } else {
        EmitForNobody(env, c, t, args);
      }
    }
  }

  lemma EmitForNobody(env: Env, c: Conn, t: int, args: string)
    requires t !in c.b.tools
    ensures EmitToolArg(env, c, t, args) == c
  {
  }

  lemma EmitKeepsOthers(env: Env, c: Conn, t: int, args: string, u: int)
    requires u != t
    ensures u in EmitToolArg(env, c, t, args).b.tools <==> u in c.b.tools
  {
    if t in c.b.tools && c.b.tools[t].name == "Task" {
      TaskKeepsOthers(c.b, t, args, env.parseTask, u);
    }
    hide BufferTaskArgs;
  }

  lemma TaskKeepsOthers(b: Builder, t: int, args: string, parse: string -> TaskParse, u: int)
    requires u != t
    ensures u in BufferTaskArgs(b, t, args, parse).b.tools <==> u in b.tools
  {
  }

  lemma BufferPending(env: Env, b: Builder, t: int, args: string)
    requires t in b.tools && TaskPending(env, b.tools[t])
    ensures var r := BufferTaskArgs(b, t, args, env.parseTask);
            t in r.b.tools && (!r.failed ==> TaskPending(env, r.b.tools[t]))
  {
  }

  lemma DeltaPending(env: Env, b: Builder, t: int, json: string)
    requires t in b.tools && TaskPending(env, b.tools[t])
    ensures t in EmitToolDelta(b, t, json).tools && TaskPending(env, EmitToolDelta(b, t, json).tools[t])
  {
  }

  lemma EmitToolArgOwnPending(env: Env, c: Conn, t: int, args: string)
    requires t in c.b.tools && TaskPending(env, c.b.tools[t])
    ensures var d := EmitToolArg(env, c, t, args); t in d.b.tools && (!d.failed ==> TaskPending(env, d.b.tools[t]))
  {
    hide BufferTaskArgs, EmitToolDelta, TaskPending, PutBuffer, PopBuffer;
    if args != "" {
      var name := c.b.tools[t].name;
      if name == "Task" {
        BufferPending(env, c.b, t, args);
        var r := BufferTaskArgs(c.b, t, args, env.parseTask);
        if r.json.Some? && !r.failed {
          DeltaPending(env, r.b, t, r.json.value);
        }
      } else if env.aliased(name) {
        var restored := env.restore(name, BufferedText(c.aliasBuffers, t) + args);
        if restored.Some? {
          DeltaPending(env, c.b, t, restored.value);
        }
      } else {
        DeltaPending(env, c.b, t, args);
      }
    }
  }

  lemma StartIfNamedPending(env: Env, c: Conn, t: int, tc: ToolDelta)
    requires AllPending(env, c.b)
    ensures var d := StartIfNamed(env, c, t, tc); !d.failed ==> AllPending(env, d.b)
  {
    if !Started(c.b, t) && !IsBlank(NameOf(c.b, t)) {
      var b := StartTool(c.b, t, tc);
      EmitToolArgPending(env, c.(b := PutTool(b, t, b.tools[t].(preStartArgs := ""))), t, b.tools[t].preStartArgs);
    }
  }

  lemma ProcessToolCallPending(env: Env, c: Conn, tc: ToolDelta)
    requires AllPending(env, c.b)
    ensures var d := ProcessToolCall(env, c, tc); !d.failed ==> AllPending(env, d.b)
  {
    var t := ResolveIndex(c.b, tc.index);
    var c1 := Registered(c, t, tc);
    StartIfNamedPending(env, c1, t, tc);
    var c2 := StartIfNamed(env, c1, t, tc);
    if !c2.failed {
      EmitToolArgPending(env, c2, t, tc.args);
    }
  }

  lemma {:induction false} ProcessToolCallsPending(env: Env, c: Conn, tcs: seq<ToolDelta>)
    requires AllPending(env, c.b)
    ensures var d := ProcessToolCalls(env, c, tcs); !d.failed ==> AllPending(env, d.b)
  {
    if tcs != [] {
      ProcessToolCallsPending(env, c, tcs[..|tcs| - 1]);
      var d := ProcessToolCalls(env, c, tcs[..|tcs| - 1]);
      if !d.failed {
        ProcessToolCallPending(env, d, tcs[|tcs| - 1]);
      }
    }
  }

  lemma {:induction false} ChunksPending(env: Env, chunks: seq<Chunk>)
    ensures var c := ProcessChunks(env, chunks); !c.failed ==> AllPending(env, c.b)
  {
    if chunks != [] {
      ChunksPending(env, chunks[..|chunks| - 1]);
      var c, chunk := ProcessChunks(env, chunks[..|chunks| - 1]), chunks[|chunks| - 1];
      if !c.failed && chunk.hasDelta {
        BeforeToolsTools(env, c, chunk);
        ProcessToolCallsPending(env, BeforeTools(env, c, chunk), chunk.tools);
      }
    }
  }

  lemma {:induction false} FlushAliasesPending(env: Env, c: Conn, keys: seq<int>)
    requires AllPending(env, c.b)
    ensures AllPending(env, FlushAliases(env, c, keys).b)
  {
    if keys != [] {
      FlushAliasesPending(env, c, keys[..|keys| - 1]);
    }
  }

  /** Whatever arrived, when a response finishes normally the final flush of
      Task arguments only meets buffers that are no JSON at all: it sends "{}"
      for each, and the exception for a value that is no object cannot occur. */
  lemma TaskFlushNeverRaises(env: Env, chunks: seq<Chunk>, t: int)
    requires !ProcessChunks(env, chunks).failed
    ensures var c := Complete(env, ProcessChunks(env, chunks));
            var b := FlushAliases(env, c, c.aliasBuffers.keys).b;
            NeedsTaskFlush(b, t) ==>
              env.parseTask(b.tools[t].taskArgBuffer).NotJson?
                  && TaskFlushJson(b.tools[t].taskArgBuffer, env.parseTask) == "{}"
  {
    ChunksPending(env, chunks);
    CompleteTools(env, ProcessChunks(env, chunks));
    var c := Complete(env, ProcessChunks(env, chunks));
    FlushAliasesPending(env, c, c.aliasBuffers.keys);
  }
}
