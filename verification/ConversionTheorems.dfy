/** What the conversion keeps, and where it puts the content that it defers. */
module ConversionTheorems {
  import opened Common
  import opened Conversion

  // --- which conversations are accepted ------------------------------------------------------------

  predicate Acceptable(m: Message) {
    m.content.Blocks? ==>
      && (m.role == Assistant ==> NoForbidden(m.content.blocks))
      && (m.role == User ==> NoImage(m.content.blocks))
  }

  lemma StepAccepts(st: Progress, m: Message, mode: ReplayMode, turn: nat)
    ensures Step(st, m, mode, turn).Ok? <==> Acceptable(m)
  {
  }

  lemma {:induction false} ScannedWhenAcceptable(messages: seq<Message>, mode: ReplayMode)
    ensures Scan(messages, mode).Ok? <==> forall m | m in messages :: Acceptable(m)
  {
    hide Step, Acceptable;
    if messages != [] {
      var before, last := messages[..|messages| - 1], messages[|messages| - 1];
      ScannedWhenAcceptable(before, mode);
      assert messages == before + [last];
      assert forall m :: m in messages <==> m in before || m == last;
      if Scan(before, mode).Ok? {
        StepAccepts(Scan(before, mode).value, last, mode, |messages| - 1);
      }
    }
  }

  /** A conversation is refused exactly for an image in a user message or an image
      or server tool block in an assistant message; deferring content adds no
      other reason. */
  lemma AcceptedWhenConvertible(messages: seq<Message>, mode: ReplayMode)
    ensures Convert(messages, mode).Ok? <==> forall m | m in messages :: Acceptable(m)
  {
    ScannedWhenAcceptable(messages, mode);
  }

  // --- tool calls and answers ------------------------------------------------------------------------

  function CallsOf(out: seq<Tagged>): seq<Call> {
    if out == [] then []
    else CallsOf(out[..|out| - 1]) + if out[|out| - 1].message.Chat? then out[|out| - 1].message.calls else []
  }

  function AnswersOf(out: seq<Tagged>): seq<OutMessage> {
    if out == [] then []
    else AnswersOf(out[..|out| - 1]) + if out[|out| - 1].message.ToolAnswer? then [out[|out| - 1].message] else []
  }

  function CallsIn(m: Message): seq<Call> {
    if m.role == Assistant && m.content.Blocks? then Calls(m.content.blocks) else []
  }

  function ToolUsesOf(messages: seq<Message>): seq<Call> {
    if messages == [] then []
    else ToolUsesOf(messages[..|messages| - 1]) + CallsIn(messages[|messages| - 1])
  }

  function Results(blocks: seq<Block>): seq<OutMessage> {
    if blocks == [] then []
    else
      var block := blocks[|blocks| - 1];
      Results(blocks[..|blocks| - 1])
      + if block.ToolResult? then [ToolAnswer(block.answers, SerializeResult(block.content))] else []
  }

  function ResultsIn(m: Message): seq<OutMessage> {
    if m.role == User && m.content.Blocks? then Results(m.content.blocks) else []
  }

  function ToolResultsOf(messages: seq<Message>): seq<OutMessage> {
    if messages == [] then []
    else ToolResultsOf(messages[..|messages| - 1]) + ResultsIn(messages[|messages| - 1])
  }

  lemma {:induction false} CallsAppend(a: seq<Tagged>, b: seq<Tagged>)
    ensures CallsOf(a + b) == CallsOf(a) + CallsOf(b)
  {
    if b == [] {
      assert a + b == a;
    } else {
      assert (a + b)[..|a + b| - 1] == a + b[..|b| - 1];
      CallsAppend(a, b[..|b| - 1]);
    }
  }

  lemma {:induction false} AnswersAppend(a: seq<Tagged>, b: seq<Tagged>)
    ensures AnswersOf(a + b) == AnswersOf(a) + AnswersOf(b)
  {
    if b == [] {
      assert a + b == a;
    } else {
      assert (a + b)[..|a + b| - 1] == a + b[..|b| - 1];
      AnswersAppend(a, b[..|b| - 1]);
    }
  }

  /** One more message behind `a`. */
  lemma OneMore(a: seq<Tagged>, t: Tagged)
    ensures CallsOf(a + [t]) == CallsOf(a) + (if t.message.Chat? then t.message.calls else [])
    ensures AnswersOf(a + [t]) == AnswersOf(a) + (if t.message.ToolAnswer? then [t.message] else [])
  {
    assert (a + [t])[..|a|] == a;
  }

  predicate NoToolUse(blocks: seq<Block>) {
    forall block | block in blocks :: !block.ToolUse?
  }

  lemma {:induction false} NoCalls(blocks: seq<Block>)
    requires NoToolUse(blocks)
    ensures Calls(blocks) == []
  {
    if blocks != [] {
      NoCalls(blocks[..|blocks| - 1]);
    }
  }

  lemma {:induction false} AfterHasNoToolUse(blocks: seq<Block>, first: nat)
    ensures NoToolUse(AfterFirstTool(blocks, first))
  {
    if blocks != [] {
      AfterHasNoToolUse(blocks[..|blocks| - 1], first);
    }
  }

  lemma {:induction false} FirstIsFirst(blocks: seq<Block>)
    ensures match FirstToolUse(blocks)
            case None => NoToolUse(blocks)
            case Some(i) => i < |blocks| && blocks[i].ToolUse? && NoToolUse(blocks[..i])
  {
    if blocks != [] {
      var before := blocks[..|blocks| - 1];
      FirstIsFirst(before);
      assert blocks == before + [blocks[|blocks| - 1]];
      if FirstToolUse(before).Some? {
        assert before[..FirstToolUse(before).value] == blocks[..FirstToolUse(before).value];
      }
    }
  }

  lemma PlainUserKeeps(out: seq<Tagged>, texts: seq<string>, turn: nat)
    ensures CallsOf(FlushTexts(out, texts, turn)) == CallsOf(out)
    ensures AnswersOf(FlushTexts(out, texts, turn)) == AnswersOf(out)
  {
    if texts != [] {
      OneMore(out, Tagged(Chat(User, Join(texts, "\n"), [], None), Direct(turn)));
    }
  }

  lemma {:induction false} UserKeepsAnswers(blocks: seq<Block>, turn: nat)
    ensures CallsOf(UserFold(blocks, turn).out) == [] && AnswersOf(UserFold(blocks, turn).out) == Results(blocks)
  {
    if blocks != [] {
      var u, block := UserFold(blocks[..|blocks| - 1], turn), blocks[|blocks| - 1];
      UserKeepsAnswers(blocks[..|blocks| - 1], turn);
      PlainUserKeeps(u.out, u.texts, turn);
      if block.ToolResult? {
        OneMore(FlushTexts(u.out, u.texts, turn), AnswerOf(block, turn));
      }
    }
  }

  lemma DeferredHasNoTools(p: Pending)
    requires NoToolUse(p.blocks)
    ensures CallsOf(DeferredMessages(p)) == [] && AnswersOf(DeferredMessages(p)) == []
  {
    NoCalls(p.blocks);
    OneMore([], Tagged(AssistantMessage(p.blocks, p.reasoning, p.mode), Deferred(p.turn)));
    assert [] + DeferredMessages(p) == DeferredMessages(p);
  }

  lemma InjectBlockKeeps(u: Injection, block: Block, p: Pending, turn: nat)
    requires NoToolUse(p.blocks)
    ensures CallsOf(InjectBlock(u, block, p, turn).out) == CallsOf(u.out)
    ensures AnswersOf(InjectBlock(u, block, p, turn).out) == AnswersOf(u.out) + Results([block])
  {
    hide CallsOf, AnswersOf, AssistantMessage, FlushTexts;
    assert Results([block]) == Results([]) + if block.ToolResult?
        then [ToolAnswer(block.answers, SerializeResult(block.content))] else [];
    if block.ToolResult? {
      var out := FlushTexts(u.out, u.texts, turn) + [AnswerOf(block, turn)];
      PlainUserKeeps(u.out, u.texts, turn);
      OneMore(FlushTexts(u.out, u.texts, turn), AnswerOf(block, turn));
      DeferredHasNoTools(p);
      CallsAppend(out, DeferredMessages(p));
      AnswersAppend(out, DeferredMessages(p));
    }
  }

  lemma ResultsSnoc(blocks: seq<Block>)
    requires blocks != []
    ensures Results(blocks) == Results(blocks[..|blocks| - 1]) + Results([blocks[|blocks| - 1]])
  {
    assert [blocks[|blocks| - 1]][..0] == [];
  }

  lemma {:induction false} InjectionKeepsAnswers(blocks: seq<Block>, p: Pending, turn: nat)
    requires NoToolUse(p.blocks)
    ensures CallsOf(InjectFold(blocks, p, turn).out) == []
            && AnswersOf(InjectFold(blocks, p, turn).out) == Results(blocks)
  {
    if blocks != [] {
      InjectionKeepsAnswers(blocks[..|blocks| - 1], p, turn);
      InjectBlockKeeps(InjectFold(blocks[..|blocks| - 1], p, turn), blocks[|blocks| - 1], p, turn);
      ResultsSnoc(blocks);
    }
  }

  ghost predicate CleanPending(st: Progress) {
    st.pending.Some? ==> NoToolUse(st.pending.value.blocks) && st.pending.value.blocks != []
  }

  lemma FlushKeeps(st: Progress)
    requires CleanPending(st)
    ensures CallsOf(Flush(st).out) == CallsOf(st.out) && AnswersOf(Flush(st).out) == AnswersOf(st.out)
  {
    if st.pending.Some? {
      DeferredHasNoTools(st.pending.value);
      CallsAppend(st.out, DeferredMessages(st.pending.value));
      AnswersAppend(st.out, DeferredMessages(st.pending.value));
    }
  }

  lemma NoCallsWithout(blocks: seq<Block>)
    ensures FirstToolUse(blocks).None? ==> Calls(blocks) == []
    ensures CleanPending(Flush(Progress([], None)))
  {
    FirstIsFirst(blocks);
    if FirstToolUse(blocks).None? {
      NoCalls(blocks);
    }
  }

  lemma AssistantStepKeeps(st: Progress, blocks: seq<Block>, reasoning: Option<string>, mode: ReplayMode, turn: nat)
    requires CleanPending(st)
    ensures var t := AssistantStep(st, blocks, reasoning, mode, turn);
            && CleanPending(t)
            && CallsOf(t.out) == CallsOf(st.out) + Calls(blocks) && AnswersOf(t.out) == AnswersOf(st.out)
  {
    hide CallsOf, AnswersOf, AfterFirstTool, Join, Replayed, TextParts, Awaited;
    FlushKeeps(st);
    NoCallsWithout(blocks);
    FirstIsFirst(blocks);
    var first := FirstToolUse(blocks);
    if first.None? {
      OneMore(Flush(st).out, Tagged(AssistantMessage(blocks, reasoning, mode), Direct(turn)));
    } else {
      OneMore(Flush(st).out, Tagged(PreMessage(blocks, first.value, reasoning, mode), Direct(turn)));
      AfterHasNoToolUse(blocks, first.value);
    }
  }

  lemma UserStepKeeps(st: Progress, blocks: seq<Block>, turn: nat)
    requires CleanPending(st)
    ensures var t := UserStep(st, blocks, turn);
            && CleanPending(t)
            && CallsOf(t.out) == CallsOf(st.out) && AnswersOf(t.out) == AnswersOf(st.out) + Results(blocks)
  {
    if st.pending.Some? && st.pending.value.remaining != {} {
      var u := InjectFold(blocks, st.pending.value, turn);
      InjectionKeepsAnswers(blocks, st.pending.value, turn);
      PlainUserKeeps(u.out, u.texts, turn);
      CallsAppend(st.out, FlushTexts(u.out, u.texts, turn));
      AnswersAppend(st.out, FlushTexts(u.out, u.texts, turn));
    } else {
      var u := UserFold(blocks, turn);
      FlushKeeps(st);
      UserKeepsAnswers(blocks, turn);
      PlainUserKeeps(u.out, u.texts, turn);
      CallsAppend(Flush(st).out, UserMessages(blocks, turn));
      AnswersAppend(Flush(st).out, UserMessages(blocks, turn));
    }
  }

  lemma StepKeeps(st: Progress, m: Message, mode: ReplayMode, turn: nat)
    requires CleanPending(st) && Step(st, m, mode, turn).Ok?
    ensures var t := Step(st, m, mode, turn).value;
            CleanPending(t) && CallsOf(t.out) == CallsOf(st.out) + CallsIn(m)
                && AnswersOf(t.out) == AnswersOf(st.out) + ResultsIn(m)
  {
    hide CallsOf, AnswersOf, AssistantStep, UserStep, StringMessage, Calls, Results;
    FlushKeeps(st);
    var base := if m.role == User then Flush(st) else st;
    if m.content.Blocks? {
      AssistantStepKeeps(st, m.content.blocks, CleanReasoning(m.reasoning), mode, turn);
      UserStepKeeps(st, m.content.blocks, turn);
    } else if m.content.Str? {
      StringHasNoCalls(m, mode);
      OneMore(base.out, Tagged(StringMessage(m, mode), Direct(turn)));
    } else {
      OneMore(base.out, Tagged(Chat(m.role, m.content.text, [], None), Direct(turn)));
    }
  }

  lemma StringHasNoCalls(m: Message, mode: ReplayMode)
    requires m.content.Str?
    ensures StringMessage(m, mode).Chat? && StringMessage(m, mode).calls == []
  {
  }

  lemma {:induction false} ScanKeepsTools(messages: seq<Message>, mode: ReplayMode)
    requires Scan(messages, mode).Ok?
    ensures var st := Scan(messages, mode).value;
            CleanPending(st) && CallsOf(st.out) == ToolUsesOf(messages) && AnswersOf(st.out) == ToolResultsOf(messages)
  {
    if messages != [] {
      hide Step, CallsOf, AnswersOf;
      ScanKeepsTools(messages[..|messages| - 1], mode);
      StepKeeps(Scan(messages[..|messages| - 1], mode).value, messages[|messages| - 1], mode, |messages| - 1);
    }
  }

  /** Every accepted conversation keeps its tool calls and its tool results, all
      of them, in order. */
  lemma ToolsAreKept(messages: seq<Message>, mode: ReplayMode)
    requires Convert(messages, mode).Ok?
    ensures CallsOf(Convert(messages, mode).value) == ToolUsesOf(messages)
    ensures AnswersOf(Convert(messages, mode).value) == ToolResultsOf(messages)
  {
    ScanKeepsTools(messages, mode);
    FlushKeeps(Scan(messages, mode).value);
  }
}
