/** Where the content that follows an assistant's tool calls is put, and how
    often. */
module ConversionDeferral {
  import opened Common
  import opened Conversion
  import T = ConversionTheorems

  // --- answers ---------------------------------------------------------------------------------------

  function AnswerIds(blocks: seq<Block>): seq<string> {
    if blocks == [] then []
    else
      var block := blocks[|blocks| - 1];
      AnswerIds(blocks[..|blocks| - 1]) + if block.ToolResult? then [AnswerId(block)] else []
  }

  predicate Covers(answers: seq<string>, ids: set<string>) {
    forall id | id in ids :: id in answers
  }

  /** How many of the answers come when all of `ids` have been answered. */
  function Covering(answers: seq<string>, ids: set<string>): nat {
    if answers == [] then 0
    else Covering(answers[..|answers| - 1], ids) + if Covers(answers, ids) then 1 else 0
  }

  lemma {:induction false} CoveringPositive(answers: seq<string>, ids: set<string>)
    requires ids != {}
    ensures Covering(answers, ids) > 0 <==> Covers(answers, ids)
  {
    if answers == [] {
      var id := Member(ids);
    } else {
      var before := answers[..|answers| - 1];
      CoveringPositive(before, ids);
      assert answers == before + [answers[|answers| - 1]];
    }
  }

  /** One answer only when it is the last that completes the set. */
  lemma CoveringOnce(answers: seq<string>, ids: set<string>)
    requires ids != {}
    ensures Covering(answers, ids) == 1 <==> Covers(answers, ids) && !Covers(answers[..|answers| - 1], ids)
  {
    CoveringPositive(answers, ids);
    if Covers(answers, ids) {
      CoveringPositive(answers[..|answers| - 1], ids);
    }
  }

  // --- counting deferred messages ------------------------------------------------------------------------

  function CountDeferred(out: seq<Tagged>, turn: nat): nat {
    if out == [] then 0
    else CountDeferred(out[..|out| - 1], turn) + if out[|out| - 1].origin == Deferred(turn) then 1 else 0
  }

  lemma {:induction false} CountAppend(a: seq<Tagged>, b: seq<Tagged>, turn: nat)
    ensures CountDeferred(a + b, turn) == CountDeferred(a, turn) + CountDeferred(b, turn)
  {
    if b == [] {
      assert a + b == a;
    } else {
      assert (a + b)[..|a + b| - 1] == a + b[..|b| - 1];
      CountAppend(a, b[..|b| - 1], turn);
    }
  }

  lemma CountOne(t: Tagged, turn: nat)
    ensures CountDeferred([t], turn) == if t.origin == Deferred(turn) then 1 else 0
  {
    assert [t][..0] == [];
  }

  lemma CountSnoc(out: seq<Tagged>, t: Tagged, turn: nat)
    ensures CountDeferred(out + [t], turn) == CountDeferred(out, turn) + if t.origin == Deferred(turn) then 1 else 0
  {
    assert (out + [t])[..|out|] == out;
  }

  lemma CountFlush(out: seq<Tagged>, texts: seq<string>, at: nat, turn: nat)
    ensures CountDeferred(FlushTexts(out, texts, at), turn) == CountDeferred(out, turn)
  {
    if texts != [] {
      CountSnoc(out, Tagged(Chat(User, Join(texts, "\n"), [], None), Direct(at)), turn);
    }
  }

  lemma {:induction false} CountUser(blocks: seq<Block>, at: nat, turn: nat)
    ensures CountDeferred(UserFold(blocks, at).out, turn) == 0
  {
    if blocks != [] {
      var u, block := UserFold(blocks[..|blocks| - 1], at), blocks[|blocks| - 1];
      CountUser(blocks[..|blocks| - 1], at, turn);
      CountFlush(u.out, u.texts, at, turn);
      if block.ToolResult? {
        CountSnoc(FlushTexts(u.out, u.texts, at), AnswerOf(block, at), turn);
      }
    }
  }

  lemma InjectBlockCounts(u: Injection, block: Block, p: Pending, at: nat, turn: nat)
    requires p.blocks != []
    ensures var v := InjectBlock(u, block, p, at);
            CountDeferred(v.out, turn) == CountDeferred(u.out, turn)
              + if block.ToolResult? && v.remaining == {} && p.turn == turn then 1 else 0
  {
    if block.ToolResult? {
      CountFlush(u.out, u.texts, at, turn);
      CountSnoc(FlushTexts(u.out, u.texts, at), AnswerOf(block, at), turn);
      CountDeferredMessages(p, turn);
      CountAppend(FlushTexts(u.out, u.texts, at) + [AnswerOf(block, at)], DeferredMessages(p), turn);
    }
    hide CountDeferred, FlushTexts, AnswerOf, DeferredMessages;
  }

  lemma CountDeferredMessages(p: Pending, turn: nat)
    requires p.blocks != []
    ensures CountDeferred(DeferredMessages(p), turn) == if p.turn == turn then 1 else 0
  {
    hide AssistantMessage, CountDeferred;
    CountOne(DeferredMessages(p)[0], turn);
  }

  function SetOf(answers: seq<string>): set<string> {
    set answer | answer in answers
  }

  /** What the loop leaves outstanding, and how often it emits. */
  lemma {:induction false} InjectionCounts(blocks: seq<Block>, p: Pending, at: nat, turn: nat)
    requires p.blocks != [] && p.remaining != {}
    ensures var u, answers := InjectFold(blocks, p, at), AnswerIds(blocks);
            && u.remaining == p.remaining - SetOf(answers)
            && (u.cleared <==> Covering(answers, p.remaining) > 0)
            && CountDeferred(u.out, turn) == if p.turn == turn then Covering(answers, p.remaining) else 0
  {
    if blocks != [] {
      var before, block := blocks[..|blocks| - 1], blocks[|blocks| - 1];
      InjectionCounts(before, p, at, turn);
      InjectBlockCounts(InjectFold(before, p, at), block, p, at, turn);
      if block.ToolResult? {
        var answers := AnswerIds(blocks);
        assert answers == AnswerIds(before) + [AnswerId(block)];
        assert answers[..|answers| - 1] == AnswerIds(before);
        OneLess(AnswerIds(before), AnswerId(block), p.remaining);
        assert InjectFold(blocks, p, at).remaining == p.remaining - SetOf(answers);
        assert InjectFold(blocks, p, at).remaining == {} <==> Covers(answers, p.remaining);
        assert Covering(answers, p.remaining) == Covering(AnswerIds(before), p.remaining) +
            if Covers(answers, p.remaining) then 1 else 0;
      } else {
        assert AnswerIds(blocks) == AnswerIds(before);
      }
    }
  }

  lemma OneLess(answers: seq<string>, answer: string, ids: set<string>)
    ensures ids - SetOf(answers) - {answer} == ids - SetOf(answers + [answer])
    ensures ids - SetOf(answers + [answer]) == {} <==> Covers(answers + [answer], ids)
  {
    if Covers(answers + [answer], ids) {
      assert ids - SetOf(answers + [answer]) == {};
    } else {
      var id :| id in ids && id !in answers + [answer];
      assert id in ids - SetOf(answers + [answer]);
    }
  }

  // --- one turn on its own ------------------------------------------------------------------------------------

  /** An assistant message with content behind its first tool call. */
  predicate Deferring(m: Message) {
    && m.role == Assistant && m.content.Blocks?
    && var first := FirstToolUse(m.content.blocks);
       first.Some? && AfterFirstTool(m.content.blocks, first.value) != []
  }

  /** A turn still waits for answers, or its content has been replayed. */
  datatype Wait = Outstanding(ids: set<string>) | Replays(times: nat)

  function WaitAfter(wait: Wait, m: Message): Wait {
    if wait.Replays? || m.role == System then wait
    else if m.content.Blocks? && m.role == User then
      var answers := AnswerIds(m.content.blocks);
      if wait.ids == {} then Replays(1)
      else if Covers(answers, wait.ids) then Replays(Covering(answers, wait.ids))
      else Outstanding(wait.ids - SetOf(answers))
    else if m.content.Blocks? || m.role == User then Replays(1)
    else wait
  }

  /** The ids of the calls in a list of blocks that can be answered. */
  function AwaitedIds(blocks: seq<Block>): set<string> {
    set block | block in blocks && block.ToolUse? && block.id.Some? && !IsBlank(block.id.value) :: block.id.value
  }

  lemma {:induction false} CallsAre(blocks: seq<Block>, call: Call)
    ensures call in Calls(blocks) <==>
              exists block :: block in blocks && block.ToolUse? && call == Call(block.id, block.name, block.arguments)
  {
    if blocks != [] {
      CallsAre(blocks[..|blocks| - 1], call);
      assert blocks == blocks[..|blocks| - 1] + [blocks[|blocks| - 1]];
    }
  }

  /** These are the answers that the converter waits for. */
  lemma AwaitedAre(blocks: seq<Block>)
    ensures Awaited(Calls(blocks)) == AwaitedIds(blocks)
  {
    hide IsBlank, Calls;
    var calls := Calls(blocks);
    forall id
      ensures id in Awaited(calls) <==> id in AwaitedIds(blocks)
    {
      if id in Awaited(calls) {
        var call :| call in calls && call.id == Some(id) && !IsBlank(id);
        CallsAre(blocks, call);
      }
      if id in AwaitedIds(blocks) {
        var block :| block in blocks && block.ToolUse? && block.id == Some(id) && !IsBlank(id);
        CallsAre(blocks, Call(block.id, block.name, block.arguments));
      }
    }
  }

  function WaitOf(messages: seq<Message>, turn: nat): Wait
    requires turn < |messages| && messages[turn].content.Blocks?
    decreases |messages|
  {
    if |messages| == turn + 1 then Outstanding(AwaitedIds(messages[turn].content.blocks))
    else WaitAfter(WaitOf(messages[..|messages| - 1], turn), messages[|messages| - 1])
  }

  /** How often the deferred content of `turn` appears in the transcript. */
  function Emissions(messages: seq<Message>, turn: nat): nat
    requires turn < |messages|
  {
    if !Deferring(messages[turn]) then 0
    else
      match WaitOf(messages, turn)
      case Outstanding(ids) => 1
      case Replays(times) => times
  }

  /** The one pending record is about `turn`, or not, as it should be. */
  ghost predicate Tracks(st: Progress, messages: seq<Message>, turn: nat)
    requires turn < |messages|
  {
    if Deferring(messages[turn]) && WaitOf(messages, turn).Outstanding? then
      && st.pending.Some? && st.pending.value.turn == turn
      && st.pending.value.remaining == WaitOf(messages, turn).ids
      && CountDeferred(st.out, turn) == 0
    else
      && (st.pending.Some? ==> st.pending.value.turn != turn)
      && CountDeferred(st.out, turn) == if Deferring(messages[turn]) then WaitOf(messages, turn).times else 0
  }

  ghost predicate SoundPending(st: Progress, count: nat) {
    st.pending.Some? ==> st.pending.value.blocks != [] && st.pending.value.turn < count
  }

  lemma CountFlushed(st: Progress, turn: nat)
    requires st.pending.Some? ==> st.pending.value.blocks != []
    ensures CountDeferred(Flush(st).out, turn) == CountDeferred(st.out, turn) +
            if st.pending.Some? && st.pending.value.turn == turn then 1 else 0
  {
    if st.pending.Some? {
      hide AssistantMessage;
      CountAppend(st.out, DeferredMessages(st.pending.value), turn);
      CountOne(DeferredMessages(st.pending.value)[0], turn);
    }
  }

  lemma UserStepCounts(st: Progress, blocks: seq<Block>, at: nat, turn: nat)
    requires st.pending.Some? ==> st.pending.value.blocks != []
    ensures var t := UserStep(st, blocks, at);
            if st.pending.Some? && st.pending.value.remaining != {} then
              var p, answers := st.pending.value, AnswerIds(blocks);
              && t.pending == (if Covers(answers, p.remaining) then None
                   else Some(p.(remaining := p.remaining - SetOf(answers))))
              && CountDeferred(t.out, turn) == CountDeferred(st.out, turn) +
                   if p.turn == turn then Covering(answers, p.remaining) else 0
            else
              && t.pending.None? && CountDeferred(t.out, turn) == CountDeferred(Flush(st).out, turn)
  {
    hide AssistantMessage, CountDeferred, Covering;
    if st.pending.Some? && st.pending.value.remaining != {} {
      var u := InjectFold(blocks, st.pending.value, at);
      InjectionCounts(blocks, st.pending.value, at, turn);
      CoveringPositive(AnswerIds(blocks), st.pending.value.remaining);
      CountFlush(u.out, u.texts, at, turn);
      CountAppend(st.out, FlushTexts(u.out, u.texts, at), turn);
    } else {
      var u := UserFold(blocks, at);
      CountUser(blocks, at, turn);
      CountFlush(u.out, u.texts, at, turn);
      CountAppend(Flush(st).out, UserMessages(blocks, at), turn);
    }
  }

  lemma AssistantStepCounts(st: Progress, blocks: seq<Block>, reasoning: Option<string>, mode: ReplayMode, at: nat,
      turn: nat)
    ensures CountDeferred(AssistantStep(st, blocks, reasoning, mode, at).out, turn) ==
            CountDeferred(Flush(st).out, turn)
  {
    hide AssistantMessage, CountDeferred;
    T.FirstIsFirst(blocks);
    var first := FirstToolUse(blocks);
    if first.None? {
      CountSnoc(Flush(st).out, Tagged(AssistantMessage(blocks, reasoning, mode), Direct(at)), turn);
    } else {
      CountSnoc(Flush(st).out, Tagged(PreMessage(blocks, first.value, reasoning, mode), Direct(at)), turn);
    }
  }

  lemma AssistantStepPends(st: Progress, blocks: seq<Block>, reasoning: Option<string>, mode: ReplayMode, at: nat)
    ensures var t := AssistantStep(st, blocks, reasoning, mode, at); var first := FirstToolUse(blocks);
            t.pending == if first.Some? then SplitPending(blocks, first.value, reasoning, mode, at) else None
  {
    T.FirstIsFirst(blocks);
  }

  lemma StepTracks(st: Progress, before: seq<Message>, m: Message, mode: ReplayMode, turn: nat)
    requires turn < |before| && Tracks(st, before, turn) && SoundPending(st, |before|)
    requires Step(st, m, mode, |before|).Ok?
    ensures Tracks(Step(st, m, mode, |before|).value, before + [m], turn)
  {
    hide CountDeferred, AssistantStep, UserStep, Covering, StringMessage, AnswerIds, FirstToolUse, AfterFirstTool,
      AssistantMessage;
    var at := |before|;
    assert (before + [m])[..at] == before && (before + [m])[turn] == before[turn];
    CountFlushed(st, turn);
    var base := if m.role == User then Flush(st) else st;
    assert Deferring(before[turn]) ==> WaitOf(before + [m], turn) == WaitAfter(WaitOf(before, turn), m);
    if m.content.Blocks? {
      if m.role == Assistant {
        AssistantStepCounts(st, m.content.blocks, CleanReasoning(m.reasoning), mode, at, turn);
        AssistantStepPends(st, m.content.blocks, CleanReasoning(m.reasoning), mode, at);
      } else if m.role == User {
        UserStepCounts(st, m.content.blocks, at, turn);
        if st.pending.Some? && st.pending.value.remaining != {} {
          CoveringPositive(AnswerIds(m.content.blocks), st.pending.value.remaining);
        }
      }
    } else if m.content.Str? {
      CountSnoc(base.out, Tagged(StringMessage(m, mode), Direct(at)), turn);
    } else {
      CountSnoc(base.out, Tagged(Chat(m.role, m.content.text, [], None), Direct(at)), turn);
    }
  }

  /** The turn of the message just converted. */
  lemma StepStartsTurn(st: Progress, before: seq<Message>, m: Message, mode: ReplayMode)
    requires SoundPending(st, |before|) && Step(st, m, mode, |before|).Ok?
    requires CountDeferred(st.out, |before|) == 0
    ensures Tracks(Step(st, m, mode, |before|).value, before + [m], |before|)
  {
    hide CountDeferred, AssistantStep, UserStep, Covering, StringMessage, AnswerIds, FirstToolUse, AfterFirstTool,
      AssistantMessage;
    var at := |before|;
    assert (before + [m])[at] == m;
    CountFlushed(st, at);
    var base := if m.role == User then Flush(st) else st;
    if m.content.Blocks? {
      AssistantStepCounts(st, m.content.blocks, CleanReasoning(m.reasoning), mode, at, at);
      AssistantStepPends(st, m.content.blocks, CleanReasoning(m.reasoning), mode, at);
      AwaitedAre(m.content.blocks);
      UserStepCounts(st, m.content.blocks, at, at);
    } else if m.content.Str? {
      CountSnoc(base.out, Tagged(StringMessage(m, mode), Direct(at)), at);
    } else {
      CountSnoc(base.out, Tagged(Chat(m.role, m.content.text, [], None), Direct(at)), at);
    }
  }

  lemma StepPending(st: Progress, m: Message, mode: ReplayMode, at: nat)
    requires SoundPending(st, at) && Step(st, m, mode, at).Ok?
    ensures SoundPending(Step(st, m, mode, at).value, at + 1)
  {
    hide CountDeferred, AssistantStep, UserStep, Covering, StringMessage, AnswerIds, FirstToolUse, AfterFirstTool,
      AssistantMessage;
    if m.content.Blocks? {
      AssistantStepPends(st, m.content.blocks, CleanReasoning(m.reasoning), mode, at);
      UserStepCounts(st, m.content.blocks, at, at);
    }
  }

  /** Turns to come have nothing in the transcript yet. */
  lemma StepNoneLater(st: Progress, m: Message, mode: ReplayMode, at: nat, turn: nat)
    requires SoundPending(st, at) && Step(st, m, mode, at).Ok? && turn >= at && CountDeferred(st.out, turn) == 0
    ensures CountDeferred(Step(st, m, mode, at).value.out, turn) == 0
  {
    hide CountDeferred, AssistantStep, UserStep, Covering, StringMessage, AnswerIds, FirstToolUse, AfterFirstTool,
      AssistantMessage;
    CountFlushed(st, turn);
    var base := if m.role == User then Flush(st) else st;
    if m.content.Blocks? {
      AssistantStepCounts(st, m.content.blocks, CleanReasoning(m.reasoning), mode, at, turn);
      UserStepCounts(st, m.content.blocks, at, turn);
    } else if m.content.Str? {
      CountSnoc(base.out, Tagged(StringMessage(m, mode), Direct(at)), turn);
    } else {
      CountSnoc(base.out, Tagged(Chat(m.role, m.content.text, [], None), Direct(at)), turn);
    }
  }

  lemma {:induction false} ScanTracks(messages: seq<Message>, mode: ReplayMode, turn: nat)
    requires Scan(messages, mode).Ok?
    ensures var st := Scan(messages, mode).value;
            && SoundPending(st, |messages|)
            && (if turn < |messages| then Tracks(st, messages, turn) else CountDeferred(st.out, turn) == 0)
  {
    hide Step, Tracks, SoundPending;
    if messages == [] {
      NothingPending();
    } else {
      var before, m := messages[..|messages| - 1], messages[|messages| - 1];
      assert messages == before + [m];
      ScanTracks(before, mode, turn);
      var st := Scan(before, mode).value;
      StepPending(st, m, mode, |before|);
      if turn < |before| {
        StepTracks(st, before, m, mode, turn);
      } else {
        StepNoneLater(st, m, mode, |before|, turn);
        if turn == |before| {
          StepStartsTurn(st, before, m, mode);
        }
      }
    }
  }

  lemma NothingPending()
    ensures SoundPending(Progress([], None), 0)
  {
  }

  /** Deferred content is never lost, although there is only one place to keep
      it: each turn's content appears as often as that turn on its own explains,
      which is at least once. */
  lemma DeferredIsEmitted(messages: seq<Message>, mode: ReplayMode, turn: nat)
    requires Convert(messages, mode).Ok? && turn < |messages|
    ensures CountDeferred(Convert(messages, mode).value, turn) == Emissions(messages, turn)
    ensures Deferring(messages[turn]) ==> Emissions(messages, turn) >= 1
  {
    ScanTracks(messages, mode, turn);
    CountFlushed(Scan(messages, mode).value, turn);
    if Deferring(messages[turn]) {
      ReplaysSomething(messages, turn);
    }
  }

  lemma {:induction false} ReplaysSomething(messages: seq<Message>, turn: nat)
    requires turn < |messages| && messages[turn].content.Blocks?
    ensures WaitOf(messages, turn).Replays? ==> WaitOf(messages, turn).times >= 1
    decreases |messages|
  {
    if |messages| > turn + 1 {
      var before, m := messages[..|messages| - 1], messages[|messages| - 1];
      ReplaysSomething(before, turn);
      var wait := WaitOf(before, turn);
      if wait.Outstanding? && wait.ids != {} && m.content.Blocks? {
        CoveringPositive(AnswerIds(m.content.blocks), wait.ids);
      }
    }
  }

  // --- exactly once ----------------------------------------------------------------------------------------------

  predicate UserBlocks(m: Message) {
    m.role == User && m.content.Blocks?
  }

  /** Message `n` completes the answers to `turn` and then gives another one. */
  predicate AnswersTooMuch(messages: seq<Message>, turn: nat, n: nat)
    requires turn < |messages| && messages[turn].content.Blocks?
  {
    && turn < n < |messages| && UserBlocks(messages[n])
    && var wait := WaitOf(messages[..n], turn);
       && wait.Outstanding? && wait.ids != {}
       && var answers := AnswerIds(messages[n].content.blocks);
          answers != [] && Covers(answers[..|answers| - 1], wait.ids)
  }

  lemma WaitOfPrefix(messages: seq<Message>, turn: nat, n: nat)
    requires turn < n < |messages| && messages[turn].content.Blocks?
    ensures messages[..|messages| - 1][..n] == messages[..n] && messages[..|messages| - 1][turn] == messages[turn]
  {
  }

  lemma LastAnswersTooMuch(wait: Wait, m: Message)
    requires wait.Outstanding? && WaitAfter(wait, m).Replays?
    ensures var answers := if m.content.Blocks? then AnswerIds(m.content.blocks) else [];
            WaitAfter(wait, m).times == 1 <==>
              !(UserBlocks(m) && wait.ids != {} && answers != [] && Covers(answers[..|answers| - 1], wait.ids))
  {
    if UserBlocks(m) && wait.ids != {} {
      CoveringOnce(AnswerIds(m.content.blocks), wait.ids);
    }
  }

  lemma {:induction false} OnceUntil(messages: seq<Message>, turn: nat)
    requires turn < |messages| && messages[turn].content.Blocks?
    ensures WaitOf(messages, turn).Replays? && WaitOf(messages, turn).times != 1 <==>
            exists n :: AnswersTooMuch(messages, turn, n)
    decreases |messages|
  {
    hide Covers, AnswerIds, Covering, WaitAfter;
    if |messages| > turn + 1 {
      var before, m, last := messages[..|messages| - 1], messages[|messages| - 1], |messages| - 1;
      OnceUntil(before, turn);
      forall n | turn < n < last
        ensures AnswersTooMuch(messages, turn, n) <==> AnswersTooMuch(before, turn, n)
      {
        WaitOfPrefix(messages, turn, n);
      }
      var wait := WaitOf(before, turn);
      OnceStep(messages, turn);
      if n :| AnswersTooMuch(before, turn, n) {
        assert AnswersTooMuch(messages, turn, n);
      }
    }
  }

  lemma OnceStep(messages: seq<Message>, turn: nat)
    requires turn + 1 < |messages| && messages[turn].content.Blocks?
    ensures var last := |messages| - 1; var before, wait := messages[..last], WaitOf(messages[..last], turn);
            && (wait.Replays? ==> WaitOf(messages, turn) == wait && !AnswersTooMuch(messages, turn, last))
            && (wait.Outstanding? ==>
                  (WaitOf(messages, turn).Replays? && WaitOf(messages, turn).times != 1 <==>
                      AnswersTooMuch(messages, turn, last)))
  {
    var last := |messages| - 1;
    var wait, m := WaitOf(messages[..last], turn), messages[last];
    if wait.Outstanding? {
      if WaitAfter(wait, m).Replays? {
        LastAnswersTooMuch(wait, m);
      } else if UserBlocks(m) {
        var answers := AnswerIds(m.content.blocks);
        if answers != [] && Covers(answers[..|answers| - 1], wait.ids) {
          assert Covers(answers, wait.ids);
        }
      }
    }
  }

  /** The deferred content appears exactly once if and only if no message answers
      more after it has given the last outstanding answer. */
  lemma DeferredOnceExactlyWhen(messages: seq<Message>, mode: ReplayMode, turn: nat)
    requires Convert(messages, mode).Ok? && turn < |messages| && Deferring(messages[turn])
    ensures CountDeferred(Convert(messages, mode).value, turn) == 1 <==> forall n :: !AnswersTooMuch(messages, turn, n)
  {
    DeferredIsEmitted(messages, mode, turn);
    OnceUntil(messages, turn);
  }

  /** Every user message answers only what is outstanding, each id once. */
  ghost predicate AnsweredOnce(messages: seq<Message>, turn: nat)
    requires turn < |messages| && messages[turn].content.Blocks?
  {
    forall n | turn < n < |messages| && UserBlocks(messages[n]) && WaitOf(messages[..n], turn).Outstanding? ::
      var answers := AnswerIds(messages[n].content.blocks);
      Distinct(answers) && forall answer | answer in answers :: answer in WaitOf(messages[..n], turn).ids
  }

  /** Then the deferred content appears exactly once. */
  lemma AnsweredOnceReplaysOnce(messages: seq<Message>, mode: ReplayMode, turn: nat)
    requires Convert(messages, mode).Ok? && turn < |messages| && Deferring(messages[turn])
             && AnsweredOnce(messages, turn)
    ensures CountDeferred(Convert(messages, mode).value, turn) == 1
  {
    DeferredOnceExactlyWhen(messages, mode, turn);
    forall n: nat
      ensures !AnswersTooMuch(messages, turn, n)
    {
      if turn < n < |messages| && UserBlocks(messages[n]) && WaitOf(messages[..n], turn).Outstanding? {
        LastIsMissing(AnswerIds(messages[n].content.blocks), WaitOf(messages[..n], turn).ids);
      }
    }
  }

  lemma LastIsMissing(answers: seq<string>, ids: set<string>)
    requires Distinct(answers) && forall answer | answer in answers :: answer in ids
    ensures answers != [] ==> !Covers(answers[..|answers| - 1], ids)
  {
    if answers != [] {
      assert answers[|answers| - 1] in ids;
      assert forall i | 0 <= i < |answers| - 1 :: answers[i] != answers[|answers| - 1];
    }
  }

  const EXTRA_ANSWER: seq<Message> := [
    Message(Assistant, Blocks([ToolUse(Some("a"), "f", "{}"), Text("later")]), None),
    Message(User, Blocks([ToolResult(Some("a"), NoContent), ToolResult(Some("b"), NoContent)]), None)]

  lemma ExtraAnswerCalls()
    ensures var blocks := EXTRA_ANSWER[0].content.blocks;
            FirstToolUse(blocks) == Some(0) && Calls(blocks) == [Call(Some("a"), "f", "{}")]
  {
    var blocks := EXTRA_ANSWER[0].content.blocks;
    assert blocks[..1] == [ToolUse(Some("a"), "f", "{}")] && blocks[..1][..0] == [];
    assert FirstToolUse(blocks[..1]) == Some(0);
    assert Calls(blocks[..1]) == [Call(Some("a"), "f", "{}")];
  }

  lemma ExtraAnswerCovers()
    ensures var answers := AnswerIds(EXTRA_ANSWER[1].content.blocks);
            Covers(answers, {"a"}) && Covering(answers, {"a"}) == 2
  {
    var blocks := EXTRA_ANSWER[1].content.blocks;
    assert blocks[..1] == [ToolResult(Some("a"), NoContent)] && blocks[..1][..0] == [];
    assert AnswerIds(blocks[..1]) == ["a"] && AnswerIds(blocks) == ["a", "b"];
    assert ["a", "b"][..1] == ["a"] && ["a"][..0] == [];
    assert Covering(["a"], {"a"}) == 1;
  }

  lemma OnlyAwaited()
    ensures AwaitedIds(EXTRA_ANSWER[0].content.blocks) == {"a"}
  {
    var blocks := EXTRA_ANSWER[0].content.blocks;
    assert "a"[0] == 'a' && !IsSpace('a') && !IsBlank("a");
    assert blocks[0] in blocks;
  }

  /** One answer too many in the same message, and the content appears twice. */
  lemma ExtraAnswerRepeats(mode: ReplayMode)
    ensures Convert(EXTRA_ANSWER, mode).Ok? && CountDeferred(Convert(EXTRA_ANSWER, mode).value, 0) == 2
  {
    hide FirstToolUse, Calls, AnswerIds, Covering, Convert, CountDeferred;
    T.AcceptedWhenConvertible(EXTRA_ANSWER, mode);
    ExtraAnswerCalls();
    ExtraAnswerCovers();
    assert Deferring(EXTRA_ANSWER[0]);
    OnlyAwaited();
    assert EXTRA_ANSWER[..1] == [EXTRA_ANSWER[0]];
    DeferredIsEmitted(EXTRA_ANSWER, mode, 0);
  }

  // --- where it goes -----------------------------------------------------------------------------------------------

  function AnsweredIds(out: seq<Tagged>): seq<string> {
    if out == [] then []
    else
      var m := out[|out| - 1].message;
      AnsweredIds(out[..|out| - 1]) + if m.ToolAnswer? then [if m.id.Some? then m.id.value else ""] else []
  }

  /** `out` with `extra` behind every answer at which all of `ids` are answered. */
  function Inserted(out: seq<Tagged>, ids: set<string>, extra: seq<Tagged>): seq<Tagged> {
    if out == [] then []
    else
      Inserted(out[..|out| - 1], ids, extra) + [out[|out| - 1]]
      + if out[|out| - 1].message.ToolAnswer? && Covers(AnsweredIds(out), ids) then extra else []
  }

  lemma InsertedSnoc(out: seq<Tagged>, t: Tagged, ids: set<string>, extra: seq<Tagged>)
    ensures Inserted(out + [t], ids, extra) ==
              Inserted(out, ids, extra) + [t]
              + if t.message.ToolAnswer? && Covers(AnsweredIds(out + [t]), ids) then extra else []
    ensures AnsweredIds(out + [t]) ==
              AnsweredIds(out)
              + if t.message.ToolAnswer? then [if t.message.id.Some? then t.message.id.value else ""] else []
  {
    assert (out + [t])[..|out|] == out;
  }

  lemma InsertedFlush(out: seq<Tagged>, plain: seq<Tagged>, texts: seq<string>, at: nat, ids: set<string>,
      extra: seq<Tagged>)
    requires out == Inserted(plain, ids, extra)
    ensures FlushTexts(out, texts, at) == Inserted(FlushTexts(plain, texts, at), ids, extra)
    ensures AnsweredIds(FlushTexts(plain, texts, at)) == AnsweredIds(plain)
  {
    if texts != [] {
      InsertedSnoc(plain, Tagged(Chat(User, Join(texts, "\n"), [], None), Direct(at)), ids, extra);
    }
  }

  lemma {:induction false} FoldsAgree(blocks: seq<Block>, p: Pending, at: nat)
    requires p.remaining != {}
    ensures var u, v := InjectFold(blocks, p, at), UserFold(blocks, at);
            && u.texts == v.texts && u.out == Inserted(v.out, p.remaining, DeferredMessages(p))
            && AnsweredIds(v.out) == AnswerIds(blocks) && u.remaining == p.remaining - SetOf(AnswerIds(blocks))
  {
    hide DeferredMessages, FlushTexts, Inserted, AnsweredIds;
    if blocks == [] {
      EmptyInserted(p.remaining, DeferredMessages(p));
    } else {
      var before, block := blocks[..|blocks| - 1], blocks[|blocks| - 1];
      FoldsAgree(before, p, at);
      var u, v := InjectFold(before, p, at), UserFold(before, at);
      if block.ToolResult? {
        InsertedFlush(u.out, v.out, v.texts, at, p.remaining, DeferredMessages(p));
        InsertedSnoc(FlushTexts(v.out, v.texts, at), AnswerOf(block, at), p.remaining, DeferredMessages(p));
        OneLess(AnswerIds(before), AnswerId(block), p.remaining);
        assert AnswerIds(blocks) == AnswerIds(before) + [AnswerId(block)];
      } else {
        assert AnswerIds(blocks) == AnswerIds(before);
      }
    }
  }

  lemma EmptyInserted(ids: set<string>, extra: seq<Tagged>)
    ensures Inserted([], ids, extra) == [] && AnsweredIds([]) == []
  {
  }

  /** Injection is the plain conversion of the message with the deferred content
      put behind each answer that finds nothing outstanding, and nothing else. */
  lemma InjectionIsInsertion(st: Progress, blocks: seq<Block>, at: nat)
    requires st.pending.Some? && st.pending.value.remaining != {}
    ensures UserStep(st, blocks, at).out ==
              st.out + Inserted(UserMessages(blocks, at), st.pending.value.remaining,
                  DeferredMessages(st.pending.value))
  {
    var p := st.pending.value;
    FoldsAgree(blocks, p, at);
    InsertedFlush(InjectFold(blocks, p, at).out, UserFold(blocks, at).out, UserFold(blocks, at).texts, at,
        p.remaining, DeferredMessages(p));
  }

  lemma {:induction false} InsertedNowhere(out: seq<Tagged>, ids: set<string>, extra: seq<Tagged>)
    requires !Covers(AnsweredIds(out), ids)
    ensures Inserted(out, ids, extra) == out
  {
    if out != [] {
      InsertedNowhere(out[..|out| - 1], ids, extra);
    }
  }

  /** Only the last answer completes the set. */
  predicate LastCompletes(answers: seq<string>, ids: set<string>) {
    answers != [] && Covers(answers, ids) && !Covers(answers[..|answers| - 1], ids)
  }

  lemma InsertedLast(before: seq<Tagged>, t: Tagged, ids: set<string>, extra: seq<Tagged>)
    requires t.message.ToolAnswer? && LastCompletes(AnsweredIds(before + [t]), ids)
    ensures Inserted(before + [t], ids, extra) == before + [t] + extra
  {
    InsertedSnoc(before, t, ids, extra);
    var answers := AnsweredIds(before + [t]);
    assert answers[..|answers| - 1] == AnsweredIds(before);
    InsertedNowhere(before, ids, extra);
  }

  lemma {:induction false} InsertedOnce(out: seq<Tagged>, ids: set<string>, extra: seq<Tagged>) returns (k: nat)
    requires LastCompletes(AnsweredIds(out), ids)
    ensures k < |out| && out[k].message.ToolAnswer? && forall i | k < i < |out| :: !out[i].message.ToolAnswer?
    ensures Inserted(out, ids, extra) == out[..k + 1] + extra + out[k + 1..]
  {
    k := 0;
    EmptyInserted(ids, extra);
    if out != [] {
      hide LastCompletes, Covers;
      var before, t := out[..|out| - 1], out[|out| - 1];
      assert out == before + [t];
      InsertedSnoc(before, t, ids, extra);
      if t.message.ToolAnswer? {
        k := |before|;
        InsertedLast(before, t, ids, extra);
        assert out[..k + 1] == out && out[k + 1..] == [];
      } else {
        assert AnsweredIds(out) == AnsweredIds(before);
        k := InsertedOnce(before, ids, extra);
        hide Inserted, AnsweredIds;
        assert before[..k + 1] == out[..k + 1] && before[k + 1..] + [t] == out[k + 1..];
      }
    }
  }

  ghost predicate Users(messages: seq<Message>) {
    forall m | m in messages :: UserBlocks(m) && NoImage(m.content.blocks)
  }

  function FlatIds(users: seq<Message>): seq<string> {
    if users == [] then []
    else
      var m := users[|users| - 1];
      FlatIds(users[..|users| - 1]) + if m.content.Blocks? then AnswerIds(m.content.blocks) else []
  }

  function PlainUsers(users: seq<Message>, at: nat): seq<Tagged> {
    if users == [] then []
    else
      var m := users[|users| - 1];
      PlainUsers(users[..|users| - 1], at)
      + if m.content.Blocks? then UserMessages(m.content.blocks, at + |users| - 1) else []
  }

  lemma PlainAnswers(blocks: seq<Block>, p: Pending, at: nat)
    requires p.remaining != {}
    ensures AnsweredIds(UserMessages(blocks, at)) == AnswerIds(blocks)
  {
    FoldsAgree(blocks, p, at);
    var v := UserFold(blocks, at);
    InsertedFlush(Inserted(v.out, {}, []), v.out, v.texts, at, {}, []);
  }

  /** While answers are missing, user messages are converted plainly. */
  lemma UserWaits(st: Progress, blocks: seq<Block>, at: nat)
    requires st.pending.Some? && st.pending.value.blocks != [] && !Covers(AnswerIds(blocks), st.pending.value.remaining)
    ensures var p := st.pending.value;
            UserStep(st, blocks, at) ==
              Progress(st.out + UserMessages(blocks, at), Some(p.(remaining := p.remaining - SetOf(AnswerIds(blocks)))))
  {
    var p := st.pending.value;
    assert p.remaining != {};
    UserStepCounts(st, blocks, at, 0);
    InjectionIsInsertion(st, blocks, at);
    PlainAnswers(blocks, p, at);
    InsertedNowhere(UserMessages(blocks, at), p.remaining, DeferredMessages(p));
  }

  /** The answer that is missing last brings the deferred content behind it. */
  lemma UserCompletes(st: Progress, blocks: seq<Block>, at: nat) returns (k: nat)
    requires st.pending.Some? && st.pending.value.blocks != [] && st.pending.value.remaining != {}
    requires LastCompletes(AnswerIds(blocks), st.pending.value.remaining)
    ensures var plain := UserMessages(blocks, at);
            && k < |plain| && plain[k].message.ToolAnswer?
                 && (forall i | k < i < |plain| :: !plain[i].message.ToolAnswer?)
            && UserStep(st, blocks, at) ==
                 Progress(st.out + (plain[..k + 1] + DeferredMessages(st.pending.value) + plain[k + 1..]), None)
  {
    var p := st.pending.value;
    UserStepCounts(st, blocks, at, 0);
    InjectionIsInsertion(st, blocks, at);
    PlainAnswers(blocks, p, at);
    k := InsertedOnce(UserMessages(blocks, at), p.remaining, DeferredMessages(p));
  }

  lemma CoversRest(before: seq<string>, answers: seq<string>, ids: set<string>)
    ensures Covers(before + answers, ids) <==> Covers(answers, ids - SetOf(before))
    ensures ids - SetOf(before) - SetOf(answers) == ids - SetOf(before + answers)
  {
  }

  lemma FlatSnoc(users: seq<Message>, m: Message)
    requires UserBlocks(m)
    ensures FlatIds(users + [m]) == FlatIds(users) + AnswerIds(m.content.blocks)
  {
    assert (users + [m])[..|users|] == users;
  }

  lemma NoUsers(before: seq<Message>, st: Progress, p: Pending)
    ensures before + [] == before && Progress(st.out + PlainUsers([], |before|),
            Some(p.(remaining := p.remaining - SetOf(FlatIds([])))))
                                     == st.(pending := Some(p))
  {
    assert before + [] == before && st.out + [] == st.out;
    assert FlatIds([]) == [] && SetOf([]) == {};
    assert p.remaining - {} == p.remaining;
  }

  lemma {:induction false} UsersWait(before: seq<Message>, users: seq<Message>, mode: ReplayMode, st: Progress,
      p: Pending)
    requires Scan(before, mode) == Ok(st) && st.pending == Some(p) && p.blocks != []
    requires Users(users) && !Covers(FlatIds(users), p.remaining)
    ensures Scan(before + users, mode) ==
              Ok(Progress(st.out + PlainUsers(users, |before|),
                  Some(p.(remaining := p.remaining - SetOf(FlatIds(users))))))
  {
    hide UserStep, UserMessages, AnswerIds, Covers, Scan, PlainUsers, FlatIds, SetOf, NoImage;
    if users == [] {
      NoUsers(before, st, p);
    } else {
      var some, m := users[..|users| - 1], users[|users| - 1];
      assert users == some + [m] && (before + some) + [m] == before + users && m in users;
      var answers, rest := AnswerIds(m.content.blocks), p.remaining - SetOf(FlatIds(some));
      FlatSnoc(some, m);
      PlainSnoc(some, m, |before|);
      CoversRest(FlatIds(some), answers, p.remaining);
      CoversMore(FlatIds(some), answers, p.remaining);
      UsersWait(before, some, mode, st, p);
      var waiting := Progress(st.out + PlainUsers(some, |before|), Some(p.(remaining := rest)));
      ScanUser(before + some, m, mode);
      UserWaits(waiting, m.content.blocks, |before + some|);
      Reattach(st.out, PlainUsers(some, |before|), UserMessages(m.content.blocks, |before + some|));
    }
  }

  lemma Reattach<X>(a: seq<X>, b: seq<X>, c: seq<X>)
    ensures a + b + c == a + (b + c)
  {
  }

  lemma CoversMore(before: seq<string>, answers: seq<string>, ids: set<string>)
    ensures Covers(before, ids) ==> Covers(before + answers, ids)
  {
  }

  lemma Reassociate<X>(base: seq<X>, early: seq<X>, late: seq<X>, extra: seq<X>, j: nat)
    requires j < |late|
    ensures var plain, k := early + late, |early| + j;
            base + early + (late[..j + 1] + extra + late[j + 1..]) == base + plain[..k + 1] + extra + plain[k + 1..]
  {
    var plain, k := early + late, |early| + j;
    assert plain[..k + 1] == early + late[..j + 1] && plain[k + 1..] == late[j + 1..];
  }

  /** The pending record right after a message that defers content. */
  lemma TurnPends(before: seq<Message>, a: Message, mode: ReplayMode)
    requires Scan(before, mode).Ok? && Deferring(a) && NoForbidden(a.content.blocks)
    ensures var blocks := a.content.blocks; var first := FirstToolUse(blocks).value;
            && Scan(before + [a], mode).Ok?
            && Scan(before + [a], mode).value.pending ==
                 Some(Pending(Awaited(Calls(blocks)), AfterFirstTool(blocks, first), CleanReasoning(a.reasoning),
                     mode, |before|))
  {
    assert (before + [a])[..|before|] == before;
    AssistantStepPends(Scan(before, mode).value, a.content.blocks, CleanReasoning(a.reasoning), mode, |before|);
  }

  /** The transcript only ever grows. */
  lemma StepExtends(st: Progress, m: Message, mode: ReplayMode, at: nat)
    requires Step(st, m, mode, at).Ok?
    ensures st.out <= Step(st, m, mode, at).value.out
  {
    hide InjectFold, UserMessages, AssistantMessage, FirstToolUse, PreMessage, SplitPending, StringMessage;
  }

  lemma {:induction false} ScanExtends(a: seq<Message>, b: seq<Message>, mode: ReplayMode)
    requires Scan(a + b, mode).Ok?
    ensures Scan(a, mode).Ok? && Scan(a, mode).value.out <= Scan(a + b, mode).value.out
  {
    hide Step;
    if b == [] {
      assert a + b == a;
    } else {
      var front := b[..|b| - 1];
      assert (a + b)[..|a + b| - 1] == a + front;
      ScanExtends(a, front, mode);
      StepExtends(Scan(a + front, mode).value, b[|b| - 1], mode, |a + front|);
    }
  }

  lemma ConvertExtends(a: seq<Message>, b: seq<Message>, mode: ReplayMode)
    requires Convert(a + b, mode).Ok?
    ensures Scan(a, mode).Ok? && Scan(a, mode).value.out <= Convert(a + b, mode).value
  {
    ScanExtends(a, b, mode);
  }

  lemma {:induction false} CountPlain(users: seq<Message>, at: nat, turn: nat)
    ensures CountDeferred(PlainUsers(users, at), turn) == 0
  {
    if users != [] {
      var m, front := users[|users| - 1], users[..|users| - 1];
      CountPlain(front, at, turn);
      if m.content.Blocks? {
        var u := UserFold(m.content.blocks, at + |users| - 1);
        CountUser(m.content.blocks, at + |users| - 1, turn);
        CountFlush(u.out, u.texts, at + |users| - 1, turn);
        CountAppend(PlainUsers(front, at), UserMessages(m.content.blocks, at + |users| - 1), turn);
      } else {
        assert PlainUsers(users, at) == PlainUsers(front, at);
      }
    }
  }

  /** Content that has been replayed stays as often as it is. */
  lemma {:induction false} ReplaysStay(a: seq<Message>, b: seq<Message>, turn: nat)
    requires turn < |a| && a[turn].content.Blocks? && WaitOf(a, turn).Replays?
    ensures (a + b)[turn] == a[turn] && WaitOf(a + b, turn) == WaitOf(a, turn)
  {
    if b == [] {
      assert a + b == a;
    } else {
      assert (a + b)[..|a + b| - 1] == a + b[..|b| - 1];
      ReplaysStay(a, b[..|b| - 1], turn);
    }
  }

  /** A turn that is no longer pending has been emitted for good. */
  lemma CountIsFinal(a: seq<Message>, b: seq<Message>, mode: ReplayMode, turn: nat)
    requires Convert(a + b, mode).Ok? && turn < |a| && Deferring(a[turn])
    requires Scan(a, mode).Ok? && Scan(a, mode).value.pending.None?
    ensures CountDeferred(Convert(a + b, mode).value, turn) == CountDeferred(Scan(a, mode).value.out, turn)
  {
    ScanTracks(a, mode, turn);
    DeferredIsEmitted(a + b, mode, turn);
    hide Scan, Convert, WaitOf, CountDeferred;
    ReplaysStay(a, b, turn);
  }

  /** The same, with the rest of the conversation to come. */
  lemma TurnEnds(
      before: seq<Message>, a: Message, users: seq<Message>, last: Message, mode: ReplayMode) returns (k: nat)
    requires Scan(before, mode).Ok? && Deferring(a) && NoForbidden(a.content.blocks)
    requires Users(users) && UserBlocks(last) && NoImage(last.content.blocks) && AnswerIds(last.content.blocks) != []
    requires AnswersExactly(FlatIds(users) + AnswerIds(last.content.blocks), AwaitedIds(a.content.blocks))
    ensures Scan(before + [a], mode).Ok? && Scan(before + [a], mode).value.pending.Some?
    ensures var st, plain := Scan(before + [a], mode).value, PlainUsers(users + [last], |before| + 1);
            && k < |plain| && plain[k].message.ToolAnswer?
                 && (forall i | k < i < |plain| :: !plain[i].message.ToolAnswer?)
            && Scan(before + [a] + users + [last], mode) ==
                 Ok(Progress(st.out + plain[..k + 1] + DeferredMessages(st.pending.value) + plain[k + 1..], None))
  {
    TurnPends(before, a, mode);
    AwaitedAre(a.content.blocks);
    var st := Scan(before + [a], mode).value;
    var answers := AnswerIds(last.content.blocks);
    LastStillMissing(FlatIds(users), answers, st.pending.value.remaining);
    CoversRest(FlatIds(users), answers, st.pending.value.remaining);
    k := TurnCompletes(before + [a], users, last, mode);
  }

  /** Every id is answered, once, and nothing else is. */
  ghost predicate AnswersExactly(answers: seq<string>, ids: set<string>) {
    Distinct(answers) && Covers(answers, ids) && forall answer | answer in answers :: answer in ids
  }

  lemma DeferredOnceHere(before: seq<Message>, a: Message, mode: ReplayMode, plain: seq<Tagged>, k: nat)
    requires Scan(before + [a], mode).Ok? && Scan(before + [a], mode).value.pending.Some? && Deferring(a)
    requires k < |plain| && CountDeferred(plain, |before|) == 0
    ensures var st := Scan(before + [a], mode).value;
            CountDeferred(st.out + plain[..k + 1] + DeferredMessages(st.pending.value) + plain[k + 1..], |before|) == 1
  {
    var st := Scan(before + [a], mode).value;
    DeferredIsOne(before, a, mode);
    hide Scan, CountDeferred, DeferredMessages, Deferring;
    CountAround(st.out, plain, DeferredMessages(st.pending.value), k, |before|);
  }

  lemma CountAround(out: seq<Tagged>, plain: seq<Tagged>, d: seq<Tagged>, k: nat, turn: nat)
    requires k < |plain|
    ensures CountDeferred(out + plain[..k + 1] + d + plain[k + 1..], turn) ==
              CountDeferred(out, turn) + CountDeferred(plain, turn) + CountDeferred(d, turn)
  {
    hide CountDeferred;
    var early, late := plain[..k + 1], plain[k + 1..];
    assert plain == early + late;
    CountAppend(early, late, turn);
    CountAppend(out + early + d, late, turn);
    CountAppend(out + early, d, turn);
    CountAppend(out, early, turn);
  }

  /** Nothing of a turn that defers has been emitted, and one message will be. */
  lemma DeferredIsOne(before: seq<Message>, a: Message, mode: ReplayMode)
    requires Scan(before + [a], mode).Ok? && Scan(before + [a], mode).value.pending.Some? && Deferring(a)
    ensures var st := Scan(before + [a], mode).value;
            && CountDeferred(st.out, |before|) == 0
            && CountDeferred(DeferredMessages(st.pending.value), |before|) == 1
  {
    hide Scan, CountDeferred, AssistantMessage, AwaitedIds, AfterFirstTool, FirstToolUse;
    var turn, st := |before|, Scan(before + [a], mode).value;
    assert (before + [a])[turn] == a;
    ScanTracks(before + [a], mode, turn);
    var d := DeferredMessages(st.pending.value);
    assert d == [d[0]] && d[0].origin == Deferred(turn);
    CountOne(d[0], turn);
  }

  /** When the user messages after a tool turn answer each of its calls exactly
      once before anything else, the content after its calls appears exactly once
      in the whole transcript, right behind the tool message with the last
      outstanding answer; up to there all else is converted as if there were
      nothing to defer, whatever the conversation goes on with. */
  lemma DeferredFollowsLastAnswer(
      before: seq<Message>, a: Message, users: seq<Message>, last: Message, rest: seq<Message>, mode: ReplayMode)
    returns (k: nat)
    requires Convert(before + [a] + users + [last] + rest, mode).Ok? && Deferring(a)
    requires (forall m | m in users :: UserBlocks(m)) && UserBlocks(last) && AnswerIds(last.content.blocks) != []
    requires AnswersExactly(FlatIds(users) + AnswerIds(last.content.blocks), AwaitedIds(a.content.blocks))
    ensures Scan(before + [a], mode).Ok? && Scan(before + [a], mode).value.pending.Some?
    ensures var st, plain := Scan(before + [a], mode).value, PlainUsers(users + [last], |before| + 1);
            var whole := Convert(before + [a] + users + [last] + rest, mode).value;
            && k < |plain| && plain[k].message.ToolAnswer?
                 && (forall i | k < i < |plain| :: !plain[i].message.ToolAnswer?)
            && st.out + plain[..k + 1] + DeferredMessages(st.pending.value) + plain[k + 1..] <= whole
            && CountDeferred(whole, |before|) == 1
  {
    var first := before + [a] + users + [last];
    ConvertExtends(first, rest, mode);
    AcceptedParts(before, a, users, last, rest, mode);
    k := TurnEnds(before, a, users, last, mode);
    assert first[|before|] == a;
    CountIsFinal(first, rest, mode, |before|);
    CountPlain(users + [last], |before| + 1, |before|);
    DeferredOnceHere(before, a, mode, PlainUsers(users + [last], |before| + 1), k);
  }

  lemma AcceptedParts(before: seq<Message>, a: Message, users: seq<Message>, last: Message, rest: seq<Message>,
      mode: ReplayMode)
    requires Convert(before + [a] + users + [last] + rest, mode).Ok? && Deferring(a)
    requires (forall m | m in users :: UserBlocks(m)) && UserBlocks(last)
    ensures Scan(before, mode).Ok? && NoForbidden(a.content.blocks) && Users(users) && NoImage(last.content.blocks)
  {
    var whole := before + [a] + users + [last] + rest;
    T.AcceptedWhenConvertible(whole, mode);
    T.ScannedWhenAcceptable(before, mode);
    assert forall m | m in before :: m in whole;
    assert forall m | m in users :: m in whole;
    assert a in whole && last in whole;
    assert forall m | m in users :: T.Acceptable(m);
    assert T.Acceptable(a) && T.Acceptable(last);
  }

  lemma TurnCompletes(before: seq<Message>, users: seq<Message>, last: Message, mode: ReplayMode) returns (k: nat)
    requires Scan(before, mode).Ok? && Users(users) && UserBlocks(last) && NoImage(last.content.blocks)
    requires Scan(before, mode).value.pending.Some? && Scan(before, mode).value.pending.value.blocks != []
    requires var ids := Scan(before, mode).value.pending.value.remaining;
             && !Covers(FlatIds(users), ids) && ids - SetOf(FlatIds(users)) != {}
             && LastCompletes(AnswerIds(last.content.blocks), ids - SetOf(FlatIds(users)))
    ensures var st, plain := Scan(before, mode).value, PlainUsers(users + [last], |before|);
            && k < |plain| && plain[k].message.ToolAnswer?
                 && (forall i | k < i < |plain| :: !plain[i].message.ToolAnswer?)
            && Scan(before + users + [last], mode) ==
                 Ok(Progress(st.out + plain[..k + 1] + DeferredMessages(st.pending.value) + plain[k + 1..], None))
  {
    hide Covers, LastCompletes, FlatIds, UserStep, UserMessages, AnswerIds, DeferredMessages, Scan, Step, PlainUsers;
    var st := Scan(before, mode).value;
    UsersWait(before, users, mode, st, st.pending.value);
    ScanUser(before + users, last, mode);
    PlainSnoc(users, last, |before|);
    k := TurnFinishes(st, PlainUsers(users, |before|), Scan(before + users, mode).value, last.content.blocks,
        |before + users|);
  }

  lemma TurnFinishes(st: Progress, early: seq<Tagged>, waiting: Progress, blocks: seq<Block>, at: nat) returns (k: nat)
    requires st.pending.Some? && st.pending.value.blocks != []
    requires waiting.pending.Some? && waiting.out == st.out + early
    requires waiting.pending.value == st.pending.value.(remaining := waiting.pending.value.remaining)
    requires waiting.pending.value.remaining != {} && LastCompletes(AnswerIds(blocks), waiting.pending.value.remaining)
    ensures var plain := early + UserMessages(blocks, at);
            && k < |plain| && plain[k].message.ToolAnswer?
                 && (forall i | k < i < |plain| :: !plain[i].message.ToolAnswer?)
            && UserStep(waiting, blocks, at) ==
                 Progress(st.out + plain[..k + 1] + DeferredMessages(st.pending.value) + plain[k + 1..], None)
  {
    hide LastCompletes, Covers, UserStep, UserMessages, AnswerIds, AssistantMessage;
    var j := UserCompletes(waiting, blocks, at);
    k := |early| + j;
    Reassociate(st.out, early, UserMessages(blocks, at), DeferredMessages(st.pending.value), j);
  }

  lemma ScanUser(messages: seq<Message>, m: Message, mode: ReplayMode)
    requires Scan(messages, mode).Ok? && UserBlocks(m) && NoImage(m.content.blocks)
    ensures Scan(messages + [m], mode) == Ok(UserStep(Scan(messages, mode).value, m.content.blocks, |messages|))
  {
    assert (messages + [m])[..|messages|] == messages;
  }

  lemma PlainSnoc(users: seq<Message>, m: Message, at: nat)
    requires UserBlocks(m)
    ensures PlainUsers(users + [m], at) == PlainUsers(users, at) + UserMessages(m.content.blocks, at + |users|)
  {
    assert (users + [m])[..|users|] == users;
  }

  lemma LastStillMissing(before: seq<string>, answers: seq<string>, ids: set<string>)
    requires answers != [] && Distinct(before + answers) && forall answer | answer in before + answers :: answer in ids
    ensures !Covers(before, ids) && !Covers(answers[..|answers| - 1], ids - SetOf(before)) && ids - SetOf(before) != {}
  {
    var all := before + answers;
    var last := answers[|answers| - 1];
    assert all[|all| - 1] == last && last in ids;
    assert forall i | 0 <= i < |all| - 1 :: all[i] != last;
    assert forall i | 0 <= i < |before| :: before[i] == all[i];
    assert forall i | 0 <= i < |answers| - 1 :: answers[i] == all[|before| + i];
    assert last in ids - SetOf(before);
  }
}
