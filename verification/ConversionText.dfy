/** What a converted conversation says: for every message the chat messages it
    becomes, given from its blocks alone, in their order. */
module ConversionText {
  import opened Common
  import opened Conversion
  import T = ConversionTheorems

  // --- what the blocks say --------------------------------------------------------------------

  function Lines(parts: seq<string>, separator: string): string {
    if parts == [] then ""
    else if |parts| == 1 then parts[0]
    else parts[0] + separator + Lines(parts[1..], separator)
  }

  function TextsIn(blocks: seq<Block>): seq<string> {
    if blocks == [] then [] else (if blocks[0].Text? then [blocks[0].text] else []) + TextsIn(blocks[1..])
  }

  function AnswerText(content: ResultContent): string {
    match content
    case NoContent => ""
    case StrContent(text) => text
    case ItemList(items) =>
      Lines(seq(|items|, i requires 0 <= i < |items| => if items[i].TextItem? then items[i].text else items[i].dump),
          "\n")
    case OtherResult(dump) => dump
  }

  function AnswerTo(block: Block): OutMessage
    requires block.ToolResult?
  {
    ToolAnswer(block.answers, AnswerText(block.content))
  }

  /** Where the first tool result stands, or the length. */
  function FirstAnswer(blocks: seq<Block>): (n: nat)
    ensures n <= |blocks| && (n < |blocks| ==> blocks[n].ToolResult?)
  {
    if blocks == [] || blocks[0].ToolResult? then 0 else 1 + FirstAnswer(blocks[1..])
  }

  function UserSays(texts: seq<string>): seq<OutMessage> {
    if texts == [] then [] else [Chat(User, Lines(texts, "\n"), [], None)]
  }

  /** A user's blocks: one message for the texts up to a tool result, line by line,
      if there are any, then the answer, and so on. */
  function UserSaid(blocks: seq<Block>): seq<OutMessage>
    decreases |blocks|
  {
    var n := FirstAnswer(blocks);
    UserSays(TextsIn(blocks[..n])) + if n == |blocks| then [] else [AnswerTo(blocks[n])] + UserSaid(blocks[n + 1..])
  }

  /** Text, and thinking in tags where that is replayed so. */
  function PartsIn(blocks: seq<Block>, mode: ReplayMode): seq<string> {
    if blocks == [] then []
    else
      (if blocks[0].Text? then [blocks[0].text]
       else if blocks[0].Thinking? && mode == ThinkTags then ["<think>\n" + blocks[0].thinking + "\n</think>"]
       else []) + PartsIn(blocks[1..], mode)
  }

  function ThinkingIn(blocks: seq<Block>): seq<string> {
    if blocks == [] then [] else (if blocks[0].Thinking? then [blocks[0].thinking] else []) + ThinkingIn(blocks[1..])
  }

  function CallsIn(blocks: seq<Block>): seq<Call> {
    if blocks == [] then []
    else
      (if blocks[0].ToolUse? then [Call(blocks[0].id, blocks[0].name, blocks[0].arguments)] else [])
      + CallsIn(blocks[1..])
  }

  function WithoutCalls(blocks: seq<Block>): seq<Block> {
    if blocks == [] then [] else (if blocks[0].ToolUse? then [] else [blocks[0]]) + WithoutCalls(blocks[1..])
  }

  function FirstCall(blocks: seq<Block>): (n: nat)
    ensures n <= |blocks|
  {
    if blocks == [] || blocks[0].ToolUse? then 0 else 1 + FirstCall(blocks[1..])
  }

  function NotEmpty(s: string): Option<string> {
    if s == "" then None else Some(s)
  }

  /** The reasoning of a message: its own, or else that of its thinking blocks. */
  function Replay(blocks: seq<Block>, own: Option<string>, mode: ReplayMode): Option<string> {
    if mode != ReasoningContent then None
    else if own.Some? then own
    else NotEmpty(Lines(ThinkingIn(blocks), "\n"))
  }

  /** An assistant's blocks without tool calls. */
  function AssistantSays(blocks: seq<Block>, own: Option<string>, mode: ReplayMode): OutMessage {
    var text := Lines(PartsIn(blocks, mode), "\n\n");
    Chat(Assistant, if text == "" then " " else text, [], Replay(blocks, own, mode))
  }

  /** An assistant's blocks with tool calls: the text before the first of them, and
      all of them. */
  function AssistantCalls(blocks: seq<Block>, own: Option<string>, mode: ReplayMode): OutMessage {
    var before := blocks[..FirstCall(blocks)];
    var text := Lines(PartsIn(before, mode), "\n\n");
    Chat(Assistant, if text == " " then "" else text, CallsIn(blocks),
         if before == [] then (if mode == ReasoningContent then own else None) else Replay(before, own, mode))
  }

  function OwnReasoning(m: Message): Option<string> {
    if m.reasoning.None? then None else NotEmpty(m.reasoning.value)
  }

  /** The chat messages that a message becomes at its place. */
  function Direct(m: Message, mode: ReplayMode): seq<OutMessage> {
    var own := OwnReasoning(m);
    match m.content
    case Blocks(blocks) =>
      (match m.role
       case User => UserSaid(blocks)
       case Assistant =>
         if FirstCall(blocks) == |blocks| then [AssistantSays(blocks, own, mode)]
             else [AssistantCalls(blocks, own, mode)]
       case System => [])
    case Str(text) =>
      if m.role == Assistant && own.Some? && mode == ReasoningContent then [Chat(Assistant, text, [], own)]
      else if m.role == Assistant && own.Some? && mode == ThinkTags then
        [Chat(Assistant, "<think>\n" + own.value + "\n</think>" + (if text == "" then "" else "\n\n" + text), [], None)]
      else [Chat(m.role, text, [], None)]
    case OtherContent(text) => [Chat(m.role, text, [], None)]
  }

  /** The message put off until its tool calls have been answered. */
  function PutOff(m: Message, mode: ReplayMode): seq<OutMessage> {
    if m.role != Assistant || !m.content.Blocks? || FirstCall(m.content.blocks) == |m.content.blocks| then []
    else
      var rest := WithoutCalls(m.content.blocks[FirstCall(m.content.blocks)..]);
      if rest == [] then [] else [AssistantSays(rest, OwnReasoning(m), mode)]
  }

  // --- the two ways of reading a sequence agree ---------------------------------------------------

  lemma {:induction false} LinesSnoc(parts: seq<string>, last: string, separator: string)
    ensures Lines(parts + [last], separator) == if parts == [] then last else Lines(parts, separator) + separator + last
  {
    if |parts| > 1 {
      assert (parts + [last])[1..] == parts[1..] + [last];
      LinesSnoc(parts[1..], last, separator);
    } else if |parts| == 1 {
      assert (parts + [last])[1..] == [last];
    }
  }

  lemma {:induction false} JoinIsLines(parts: seq<string>, separator: string)
    ensures Join(parts, separator) == Lines(parts, separator)
  {
    if |parts| > 1 {
      var front, last := parts[..|parts| - 1], parts[|parts| - 1];
      JoinIsLines(front, separator);
      LinesSnoc(front, last, separator);
      assert parts == front + [last];
    }
  }

  lemma SnocParts(blocks: seq<Block>, b: Block)
    requires blocks != []
    ensures (blocks + [b])[0] == blocks[0] && (blocks + [b])[1..] == blocks[1..] + [b]
  {
  }

  lemma {:induction false} TextsSnoc(blocks: seq<Block>, b: Block)
    ensures TextsIn(blocks + [b]) == TextsIn(blocks) + if b.Text? then [b.text] else []
  {
    if blocks == [] {
      assert (blocks + [b])[1..] == [];
    } else {
      SnocParts(blocks, b);
      TextsSnoc(blocks[1..], b);
    }
  }

  lemma {:induction false} PartsSnoc(blocks: seq<Block>, b: Block, mode: ReplayMode)
    ensures PartsIn(blocks + [b], mode) ==
              PartsIn(blocks, mode) + if b.Text? then [b.text]
                                      else if b.Thinking? && mode ==
                                          ThinkTags then ["<think>\n" + b.thinking + "\n</think>"]
                                      else []
  {
    if blocks == [] {
      assert (blocks + [b])[1..] == [];
    } else {
      SnocParts(blocks, b);
      PartsSnoc(blocks[1..], b, mode);
    }
  }

  lemma {:induction false} ThinkingSnoc(blocks: seq<Block>, b: Block)
    ensures ThinkingIn(blocks + [b]) == ThinkingIn(blocks) + if b.Thinking? then [b.thinking] else []
  {
    if blocks == [] {
      assert (blocks + [b])[1..] == [];
    } else {
      SnocParts(blocks, b);
      ThinkingSnoc(blocks[1..], b);
    }
  }

  lemma {:induction false} CallsSnoc(blocks: seq<Block>, b: Block)
    ensures CallsIn(blocks + [b]) == CallsIn(blocks) + if b.ToolUse? then [Call(b.id, b.name, b.arguments)] else []
  {
    if blocks == [] {
      assert (blocks + [b])[1..] == [];
    } else {
      SnocParts(blocks, b);
      CallsSnoc(blocks[1..], b);
    }
  }

  lemma {:induction false} WithoutSnoc(blocks: seq<Block>, b: Block)
    ensures WithoutCalls(blocks + [b]) == WithoutCalls(blocks) + if b.ToolUse? then [] else [b]
  {
    if blocks == [] {
      assert (blocks + [b])[1..] == [];
    } else {
      SnocParts(blocks, b);
      WithoutSnoc(blocks[1..], b);
    }
  }

  lemma {:induction false} PartsAgree(blocks: seq<Block>, mode: ReplayMode)
    ensures TextParts(blocks, mode) == PartsIn(blocks, mode)
  {
    if blocks != [] {
      var front, last := blocks[..|blocks| - 1], blocks[|blocks| - 1];
      PartsAgree(front, mode);
      PartsSnoc(front, last, mode);
      assert blocks == front + [last];
    }
  }

  lemma {:induction false} ThinkingAgree(blocks: seq<Block>)
    ensures ThinkingParts(blocks) == ThinkingIn(blocks)
  {
    if blocks != [] {
      var front, last := blocks[..|blocks| - 1], blocks[|blocks| - 1];
      ThinkingAgree(front);
      ThinkingSnoc(front, last);
      assert blocks == front + [last];
    }
  }

  lemma {:induction false} CallsAgree(blocks: seq<Block>)
    ensures Calls(blocks) == CallsIn(blocks)
  {
    if blocks != [] {
      var front, last := blocks[..|blocks| - 1], blocks[|blocks| - 1];
      CallsAgree(front);
      CallsSnoc(front, last);
      assert blocks == front + [last];
    }
  }

  /** Nothing is put off up to the first call. */
  lemma {:induction false} AfterAgrees(blocks: seq<Block>, first: nat)
    requires first < |blocks|
    ensures AfterFirstTool(blocks, first) == WithoutCalls(blocks[first + 1..])
    decreases |blocks|
  {
    var front, last := blocks[..|blocks| - 1], blocks[|blocks| - 1];
    if first == |blocks| - 1 {
      NothingAfter(front, first);
      assert blocks[first + 1..] == [];
    } else {
      AfterAgrees(front, first);
      WithoutSnoc(front[first + 1..], last);
      assert blocks[first + 1..] == front[first + 1..] + [last];
    }
  }

  lemma {:induction false} NothingAfter(blocks: seq<Block>, first: nat)
    requires |blocks| <= first + 1
    ensures AfterFirstTool(blocks, first) == []
  {
    if blocks != [] {
      NothingAfter(blocks[..|blocks| - 1], first);
    }
  }

  lemma {:induction false} FirstCallMeans(blocks: seq<Block>)
    ensures var n := FirstCall(blocks);
            (forall i | 0 <= i < n :: !blocks[i].ToolUse?) && (n < |blocks| ==> blocks[n].ToolUse?)
  {
    if blocks != [] && !blocks[0].ToolUse? {
      FirstCallMeans(blocks[1..]);
      var n := FirstCall(blocks[1..]);
      forall i | 0 <= i < n + 1
        ensures !blocks[i].ToolUse?
      {
        assert i > 0 ==> blocks[i] == blocks[1..][i - 1];
      }
    }
  }

  lemma FirstAgrees(blocks: seq<Block>)
    ensures FirstToolUse(blocks) == if FirstCall(blocks) == |blocks| then None else Some(FirstCall(blocks))
  {
    T.FirstIsFirst(blocks);
    FirstCallMeans(blocks);
    hide FirstToolUse, FirstCall;
    var n := FirstCall(blocks);
    var found := FirstToolUse(blocks);
    if found.Some? {
      NoneAt(blocks[..found.value]);
    } else {
      NoneAt(blocks);
    }
  }

  lemma NoneAt(blocks: seq<Block>)
    requires T.NoToolUse(blocks)
    ensures forall i | 0 <= i < |blocks| :: !blocks[i].ToolUse?
  {
  }

  // --- assistant messages -------------------------------------------------------------------------

  lemma CleanIsOwn(m: Message)
    ensures CleanReasoning(m.reasoning) == OwnReasoning(m) && (OwnReasoning(m).Some? ==> OwnReasoning(m).value != "")
  {
  }

  lemma ReplayAgrees(blocks: seq<Block>, own: Option<string>, mode: ReplayMode)
    requires own.Some? ==> own.value != ""
    ensures Replayed(blocks, own, mode) == Replay(blocks, own, mode)
  {
    ThinkingAgree(blocks);
    JoinIsLines(ThinkingIn(blocks), "\n");
    hide ThinkingParts, ThinkingIn, Join, Lines;
  }

  lemma AssistantAgrees(blocks: seq<Block>, own: Option<string>, mode: ReplayMode)
    requires (own.Some? ==> own.value != "") && T.NoToolUse(blocks)
    ensures AssistantMessage(blocks, own, mode) == AssistantSays(blocks, own, mode)
  {
    PartsAgree(blocks, mode);
    JoinIsLines(PartsIn(blocks, mode), "\n\n");
    ReplayAgrees(blocks, own, mode);
    T.NoCalls(blocks);
    hide TextParts, PartsIn, Join, Lines, Calls, Replayed, Replay;
  }

  lemma PreAgrees(blocks: seq<Block>, own: Option<string>, mode: ReplayMode)
    requires (own.Some? ==> own.value != "") && FirstCall(blocks) < |blocks|
    ensures PreMessage(blocks, FirstCall(blocks), own, mode) == AssistantCalls(blocks, own, mode)
  {
    FirstCallMeans(blocks);
    CallsAgree(blocks);
    var before := blocks[..FirstCall(blocks)];
    assert T.NoToolUse(before);
    AssistantAgrees(before, own, mode);
    NothingSaid(mode);
    hide CallsIn, Calls, PartsIn, Lines, AssistantMessage, Replay, T.NoToolUse, FirstCall;
  }

  lemma NothingSaid(mode: ReplayMode)
    ensures Lines(PartsIn([], mode), "\n\n") == ""
  {
  }

  /** What is put off, as the pending record has it. */
  lemma PutOffAgrees(m: Message, mode: ReplayMode, turn: nat)
    requires m.role == Assistant && m.content.Blocks? && FirstCall(m.content.blocks) < |m.content.blocks|
    ensures var blocks := m.content.blocks;
            var p := SplitPending(blocks, FirstCall(blocks), CleanReasoning(m.reasoning), mode, turn);
            p.Some? ==>
              && p.value.turn == turn && |PutOff(m, mode)| == 1
              && DeferredMessages(p.value) == [Tagged(PutOff(m, mode)[0], Deferred(turn))]
  {
    var blocks := m.content.blocks;
    var n := FirstCall(blocks);
    FirstCallMeans(blocks);
    CleanIsOwn(m);
    AfterAgrees(blocks, n);
    var rest := WithoutCalls(blocks[n + 1..]);
    assert blocks[n..][1..] == blocks[n + 1..];
    assert WithoutCalls(blocks[n..]) == [] + rest == rest;
    T.AfterHasNoToolUse(blocks, n);
    AssistantAgrees(rest, OwnReasoning(m), mode);
    hide WithoutCalls, AfterFirstTool, AssistantMessage, AssistantSays, OwnReasoning, CleanReasoning, FirstCall,
      T.NoToolUse;
  }

  // --- user messages ------------------------------------------------------------------------------

  /** What is settled with the last answer, and the texts behind it. */
  function Settled(blocks: seq<Block>): seq<OutMessage>
    decreases |blocks|
  {
    var n := FirstAnswer(blocks);
    if n == |blocks| then []
    else UserSays(TextsIn(blocks[..n])) + [AnswerTo(blocks[n])] + Settled(blocks[n + 1..])
  }

  function Trailing(blocks: seq<Block>): seq<string>
    decreases |blocks|
  {
    var n := FirstAnswer(blocks);
    if n == |blocks| then TextsIn(blocks) else Trailing(blocks[n + 1..])
  }

  lemma {:induction false} SaidIsSettled(blocks: seq<Block>)
    ensures UserSaid(blocks) == Settled(blocks) + UserSays(Trailing(blocks))
    decreases |blocks|
  {
    hide UserSays, TextsIn, Settled, UserSaid, Trailing, AnswerTo, FirstAnswer;
    var n := FirstAnswer(blocks);
    if n == |blocks| {
      NothingSettled(blocks);
    } else {
      SettledUnfolds(blocks);
      SaidIsSettled(blocks[n + 1..]);
      Regroup(UserSays(TextsIn(blocks[..n])), [AnswerTo(blocks[n])], Settled(blocks[n + 1..]),
              UserSays(Trailing(blocks[n + 1..])));
    }
  }

  lemma NothingSettled(blocks: seq<Block>)
    requires FirstAnswer(blocks) == |blocks|
    ensures UserSaid(blocks) == Settled(blocks) + UserSays(Trailing(blocks))
  {
    assert blocks[..|blocks|] == blocks;
    hide FirstAnswer, UserSays, TextsIn;
    assert UserSays(TextsIn(blocks)) + [] == [] + UserSays(TextsIn(blocks));
  }

  lemma Regroup<X>(a: seq<X>, b: seq<X>, c: seq<X>, d: seq<X>)
    ensures a + (b + (c + d)) == a + b + c + d
    ensures a + b + (c + d) == a + b + c + d
  {
  }

  lemma SettledUnfolds(blocks: seq<Block>)
    requires FirstAnswer(blocks) < |blocks|
    ensures var n := FirstAnswer(blocks);
            && Settled(blocks) == UserSays(TextsIn(blocks[..n])) + [AnswerTo(blocks[n])] + Settled(blocks[n + 1..])
            && Trailing(blocks) == Trailing(blocks[n + 1..])
            && UserSaid(blocks) == UserSays(TextsIn(blocks[..n])) + ([AnswerTo(blocks[n])] + UserSaid(blocks[n + 1..]))
  {
  }

  lemma {:induction false} FirstAnswerSnoc(blocks: seq<Block>, b: Block)
    ensures FirstAnswer(blocks + [b]) ==
              if FirstAnswer(blocks) < |blocks| || b.ToolResult? then FirstAnswer(blocks) else |blocks| + 1
  {
    if blocks == [] {
      assert (blocks + [b])[1..] == [];
    } else {
      SnocParts(blocks, b);
      FirstAnswerSnoc(blocks[1..], b);
    }
  }

  /** One more block: a text trails, an answer settles what trails and itself. */
  lemma {:induction false} SettledSnoc(blocks: seq<Block>, b: Block)
    ensures if b.ToolResult?
            then Settled(blocks + [b]) == Settled(blocks) + UserSays(Trailing(blocks)) + [AnswerTo(b)]
                 && Trailing(blocks + [b]) == []
            else Settled(blocks + [b]) == Settled(blocks)
                 && Trailing(blocks + [b]) == Trailing(blocks) + if b.Text? then [b.text] else []
    decreases |blocks|
  {
    hide Settled, Trailing, UserSays, TextsIn, AnswerTo, FirstAnswer;
    var n, more := FirstAnswer(blocks), blocks + [b];
    FirstAnswerSnoc(blocks, b);
    if n == |blocks| {
      LastSnoc(blocks, b);
    } else {
      SettledUnfolds(blocks);
      SettledUnfolds(more);
      SettledSnoc(blocks[n + 1..], b);
      SliceSnoc(blocks, b, n);
      if b.ToolResult? {
        AppendTwice(UserSays(TextsIn(blocks[..n])) + [AnswerTo(blocks[n])], Settled(blocks[n + 1..]),
                    UserSays(Trailing(blocks[n + 1..])), [AnswerTo(b)]);
      }
    }
  }

  lemma SliceSnoc(blocks: seq<Block>, b: Block, n: nat)
    requires n < |blocks|
    ensures (blocks + [b])[n + 1..] == blocks[n + 1..] + [b]
    ensures (blocks + [b])[..n] == blocks[..n] && (blocks + [b])[n] == blocks[n]
  {
  }

  lemma AppendTwice<X>(a: seq<X>, b: seq<X>, c: seq<X>, d: seq<X>)
    ensures a + (b + c + d) == a + b + c + d
  {
  }

  /** The first answer, or still none. */
  lemma LastSnoc(blocks: seq<Block>, b: Block)
    requires FirstAnswer(blocks) == |blocks|
    requires FirstAnswer(blocks + [b]) == if b.ToolResult? then |blocks| else |blocks| + 1
    ensures Settled(blocks) == [] && Trailing(blocks) == TextsIn(blocks)
    ensures if b.ToolResult?
            then Settled(blocks + [b]) == [] + UserSays(TextsIn(blocks)) + [AnswerTo(b)] && Trailing(blocks + [b]) == []
            else Settled(blocks + [b]) == []
                 && Trailing(blocks + [b]) == TextsIn(blocks) + if b.Text? then [b.text] else []
  {
    var more := blocks + [b];
    TextsSnoc(blocks, b);
    if b.ToolResult? {
      assert more[..|blocks|] == blocks && more[|blocks|] == b && more[|blocks| + 1..] == [];
      SettledUnfolds(more);
      NoBlocks();
      hide UserSays, TextsIn, AnswerTo, FirstAnswer;
      assert UserSays(TextsIn(blocks)) + [AnswerTo(b)] + [] == [] + UserSays(TextsIn(blocks)) + [AnswerTo(b)];
    } else {
      hide UserSays, TextsIn, AnswerTo, FirstAnswer;
    }
  }

  lemma NoBlocks()
    ensures Settled([]) == [] && Trailing([]) == []
  {
  }

  lemma {:induction false} ItemTextsAre(items: seq<ResultItem>)
    ensures ItemTexts(items) ==
              seq(|items|, i requires 0 <= i < |items| => if items[i].TextItem? then items[i].text else items[i].dump)
  {
    if items != [] {
      ItemTextsAre(items[..|items| - 1]);
    }
  }

  lemma AnswerAgrees(block: Block, turn: nat)
    requires block.ToolResult?
    ensures AnswerOf(block, turn).message == AnswerTo(block)
  {
    if block.content.ItemList? {
      ItemTextsAre(block.content.items);
      JoinIsLines(ItemTexts(block.content.items), "\n");
    }
  }

  // --- messages of one turn -----------------------------------------------------------------------

  /** The messages that come directly from message `turn`, in order. */
  function From(out: seq<Tagged>, turn: nat): seq<OutMessage> {
    if out == [] then []
    else
      var last := out[|out| - 1];
      From(out[..|out| - 1], turn) + if last.origin == Conversion.Direct(turn) then [last.message] else []
  }

  lemma {:induction false} FromAppend(a: seq<Tagged>, b: seq<Tagged>, turn: nat)
    ensures From(a + b, turn) == From(a, turn) + From(b, turn)
  {
    if b == [] {
      assert a + b == a;
    } else {
      assert (a + b)[..|a + b| - 1] == a + b[..|b| - 1];
      FromAppend(a, b[..|b| - 1], turn);
    }
  }

  lemma FromOne(t: Tagged, turn: nat)
    ensures From([t], turn) == if t.origin == Conversion.Direct(turn) then [t.message] else []
  {
    assert [t][..0] == [];
  }

  /** `more` brings the messages `said` of turn `turn` and, of others, only what
      they had put off. */
  ghost predicate Brings(more: seq<Tagged>, turn: nat, said: seq<OutMessage>, messages: seq<Message>,
      mode: ReplayMode) {
    && From(more, turn) == said
    && forall t | t in more :: t.origin == Conversion.Direct(turn) || PutOffBy(t, turn, messages, mode)
  }

  /** `t` is what an earlier message had put off. */
  ghost predicate PutOffBy(t: Tagged, turn: nat, messages: seq<Message>, mode: ReplayMode) {
    && t.origin.Deferred? && t.origin.turn < turn && t.origin.turn < |messages|
    && PutOff(messages[t.origin.turn], mode) == [t.message]
  }

  lemma BringsMore(a: seq<Tagged>, b: seq<Tagged>, turn: nat, x: seq<OutMessage>, y: seq<OutMessage>,
      messages: seq<Message>,
      mode: ReplayMode)
    requires Brings(a, turn, x, messages, mode) && Brings(b, turn, y, messages, mode)
    ensures Brings(a + b, turn, x + y, messages, mode)
  {
    FromAppend(a, b, turn);
    hide PutOffBy;
  }

  lemma BringsOne(message: OutMessage, turn: nat, messages: seq<Message>, mode: ReplayMode)
    ensures Brings([Tagged(message, Conversion.Direct(turn))], turn, [message], messages, mode)
  {
    FromOne(Tagged(message, Conversion.Direct(turn)), turn);
  }

  lemma BringsNothing(turn: nat, messages: seq<Message>, mode: ReplayMode)
    ensures Brings([], turn, [], messages, mode)
  {
  }

  lemma FlushTextsBring(out: seq<Tagged>, texts: seq<string>, turn: nat, said: seq<OutMessage>, messages: seq<Message>,
      mode: ReplayMode)
    requires Brings(out, turn, said, messages, mode)
    ensures Brings(FlushTexts(out, texts, turn), turn, said + UserSays(texts), messages, mode)
  {
    hide Brings, Lines, Join;
    if texts == [] {
      assert said + [] == said;
    } else {
      JoinIsLines(texts, "\n");
      var message := Chat(User, Lines(texts, "\n"), [], None);
      BringsOne(message, turn, messages, mode);
      BringsMore(out, [Tagged(message, Conversion.Direct(turn))], turn, said, [message], messages, mode);
    }
  }

  lemma AnswerBrings(out: seq<Tagged>, block: Block, turn: nat, said: seq<OutMessage>, messages: seq<Message>,
      mode: ReplayMode)
    requires block.ToolResult? && Brings(out, turn, said, messages, mode)
    ensures Brings(out + [AnswerOf(block, turn)], turn, said + [AnswerTo(block)], messages, mode)
  {
    AnswerAgrees(block, turn);
    hide Brings, SerializeResult, AnswerText;
    BringsOne(AnswerTo(block), turn, messages, mode);
    BringsMore(out, [AnswerOf(block, turn)], turn, said, [AnswerTo(block)], messages, mode);
  }

  lemma {:induction false} UserFoldBrings(blocks: seq<Block>, turn: nat, messages: seq<Message>, mode: ReplayMode)
    ensures var u := UserFold(blocks, turn);
            Brings(u.out, turn, Settled(blocks), messages, mode) && u.texts == Trailing(blocks)
  {
    if blocks != [] {
      var front, block := blocks[..|blocks| - 1], blocks[|blocks| - 1];
      assert blocks == front + [block];
      UserFoldBrings(front, turn, messages, mode);
      SettledSnoc(front, block);
      var u := UserFold(front, turn);
      hide Brings, Settled, Trailing, AnswerOf, AnswerTo, FlushTexts, UserSays;
      if block.ToolResult? {
        FlushTextsBring(u.out, u.texts, turn, Settled(front), messages, mode);
        AnswerBrings(FlushTexts(u.out, u.texts, turn), block, turn, Settled(front) + UserSays(u.texts), messages, mode);
      }
    }
  }

  lemma UserBrings(blocks: seq<Block>, turn: nat, messages: seq<Message>, mode: ReplayMode)
    ensures Brings(UserMessages(blocks, turn), turn, UserSaid(blocks), messages, mode)
  {
    UserFoldBrings(blocks, turn, messages, mode);
    SaidIsSettled(blocks);
    hide Brings, UserFold, FlushTexts, Settled, Trailing, UserSaid, UserSays;
    var u := UserFold(blocks, turn);
    FlushTextsBring(u.out, u.texts, turn, Settled(blocks), messages, mode);
  }

  /** The pending record holds what an earlier message put off. */
  ghost predicate Holds(p: Pending, turn: nat, messages: seq<Message>, mode: ReplayMode) {
    forall t | t in DeferredMessages(p) :: PutOffBy(t, turn, messages, mode)
  }

  lemma HeldBrings(p: Pending, turn: nat, messages: seq<Message>, mode: ReplayMode)
    requires Holds(p, turn, messages, mode)
    ensures Brings(DeferredMessages(p), turn, [], messages, mode)
  {
    var d := DeferredMessages(p);
    if d != [] {
      assert d == [d[0]] && d[0] in d;
      FromOne(d[0], turn);
    }
  }

  lemma {:induction false} InjectBrings(blocks: seq<Block>, p: Pending, turn: nat, messages: seq<Message>,
      mode: ReplayMode)
    requires Holds(p, turn, messages, mode)
    ensures var u := InjectFold(blocks, p, turn);
            Brings(u.out, turn, Settled(blocks), messages, mode) && u.texts == Trailing(blocks)
  {
    if blocks != [] {
      var front, block := blocks[..|blocks| - 1], blocks[|blocks| - 1];
      assert blocks == front + [block];
      InjectBrings(front, p, turn, messages, mode);
      SettledSnoc(front, block);
      var u := InjectFold(front, p, turn);
      hide Brings, Settled, Trailing, AnswerOf, AnswerTo, FlushTexts, UserSays, Holds, DeferredMessages, InjectFold;
      assert InjectFold(blocks, p, turn) == InjectBlock(u, block, p, turn) by {
        InjectUnfolds(blocks, p, turn);
      }
      if block.ToolResult? {
        var answered := FlushTexts(u.out, u.texts, turn) + [AnswerOf(block, turn)];
        FlushTextsBring(u.out, u.texts, turn, Settled(front), messages, mode);
        AnswerBrings(FlushTexts(u.out, u.texts, turn), block, turn, Settled(front) + UserSays(u.texts), messages, mode);
        HeldBrings(p, turn, messages, mode);
        BringsMore(answered, DeferredMessages(p), turn, Settled(blocks), [], messages, mode);
        assert Settled(blocks) + [] == Settled(blocks);
      }
    }
  }

  lemma InjectUnfolds(blocks: seq<Block>, p: Pending, turn: nat)
    requires blocks != []
    ensures InjectFold(blocks, p, turn) ==
              InjectBlock(InjectFold(blocks[..|blocks| - 1], p, turn), blocks[|blocks| - 1], p, turn)
  {
    hide InjectBlock;
  }

  lemma InjectionBrings(blocks: seq<Block>, p: Pending, turn: nat, messages: seq<Message>, mode: ReplayMode)
    requires Holds(p, turn, messages, mode)
    ensures var u := InjectFold(blocks, p, turn);
            Brings(FlushTexts(u.out, u.texts, turn), turn, UserSaid(blocks), messages, mode)
  {
    InjectBrings(blocks, p, turn, messages, mode);
    SaidIsSettled(blocks);
    hide Brings, InjectFold, FlushTexts, Settled, Trailing, UserSaid, UserSays;
    var u := InjectFold(blocks, p, turn);
    FlushTextsBring(u.out, u.texts, turn, Settled(blocks), messages, mode);
  }

  // --- one message --------------------------------------------------------------------------------

  ghost predicate PendingHolds(st: Progress, turn: nat, messages: seq<Message>, mode: ReplayMode) {
    st.pending.Some? ==> Holds(st.pending.value, turn, messages, mode)
  }

  lemma FlushBrings(st: Progress, turn: nat, messages: seq<Message>, mode: ReplayMode) returns (more: seq<Tagged>)
    requires PendingHolds(st, turn, messages, mode)
    ensures Flush(st).out == st.out + more && Flush(st).pending.None? && Brings(more, turn, [], messages, mode)
  {
    more := [];
    BringsNothing(turn, messages, mode);
    assert st.out + [] == st.out;
    if st.pending.Some? {
      HeldBrings(st.pending.value, turn, messages, mode);
      more := DeferredMessages(st.pending.value);
    }
  }

  lemma UserStepBrings(st: Progress, blocks: seq<Block>, turn: nat, messages: seq<Message>, mode: ReplayMode)
    returns (more: seq<Tagged>)
    requires PendingHolds(st, turn, messages, mode)
    ensures UserStep(st, blocks, turn).out == st.out + more && Brings(more, turn, UserSaid(blocks), messages, mode)
    ensures PendingHolds(UserStep(st, blocks, turn), turn, messages, mode)
  {
    hide Brings, UserSaid, UserMessages, InjectFold, FlushTexts, PutOffBy;
    if st.pending.Some? && st.pending.value.remaining != {} {
      var u := InjectFold(blocks, st.pending.value, turn);
      InjectionBrings(blocks, st.pending.value, turn, messages, mode);
      more := FlushTexts(u.out, u.texts, turn);
      LessRemaining(st.pending.value, u.remaining);
    } else {
      var flushed := FlushBrings(st, turn, messages, mode);
      UserBrings(blocks, turn, messages, mode);
      BringsMore(flushed, UserMessages(blocks, turn), turn, [], UserSaid(blocks), messages, mode);
      more := flushed + UserMessages(blocks, turn);
      assert [] + UserSaid(blocks) == UserSaid(blocks);
      assert st.out + flushed + UserMessages(blocks, turn) == st.out + more;
    }
  }

  lemma LessRemaining(p: Pending, remaining: set<string>)
    ensures DeferredMessages(p.(remaining := remaining)) == DeferredMessages(p)
  {
    hide AssistantMessage;
  }

  /** What a step of an assistant message with blocks adds behind the flush. */
  lemma AssistantStepIs(st: Progress, m: Message, mode: ReplayMode, turn: nat)
    requires m.role == Assistant && m.content.Blocks?
    ensures |Direct(m, mode)| == 1
    ensures var t := AssistantStep(st, m.content.blocks, CleanReasoning(m.reasoning), mode, turn);
            && t.out == Flush(st).out + [Tagged(Direct(m, mode)[0], Conversion.Direct(turn))]
            && (t.pending.Some? ==>
                  t.pending.value.turn == turn && |PutOff(m, mode)| == 1
                  && DeferredMessages(t.pending.value) == [Tagged(PutOff(m, mode)[0], Deferred(turn))])
  {
    var blocks := m.content.blocks;
    FirstAgrees(blocks);
    CleanIsOwn(m);
    if FirstCall(blocks) == |blocks| {
      T.FirstIsFirst(blocks);
      AssistantAgrees(blocks, OwnReasoning(m), mode);
      FlushedNone(st);
      hide AssistantMessage, AssistantSays, FirstToolUse, FirstCall, OwnReasoning, CleanReasoning;
    } else {
      PreAgrees(blocks, OwnReasoning(m), mode);
      PutOffAgrees(m, mode, turn);
      hide PreMessage, AssistantCalls, AssistantSays, FirstToolUse, FirstCall, OwnReasoning, CleanReasoning,
        SplitPending,
        PutOff, DeferredMessages;
    }
  }

  lemma FlushedNone(st: Progress)
    ensures Flush(st).pending.None?
  {
  }

  lemma StringAgrees(m: Message, mode: ReplayMode)
    requires m.content.Str?
    ensures [StringMessage(m, mode)] == Direct(m, mode)
  {
    CleanIsOwn(m);
    var text := m.content.text;
    if OwnReasoning(m).Some? {
      var think := ThinkTagContent(OwnReasoning(m).value);
      assert [think] + [] == [think] && ([think] + [text])[..1] == [think];
      assert Join([think] + [text], "\n\n") == think + "\n\n" + text;
      assert think + ("\n\n" + text) == think + "\n\n" + text && think + "" == think;
    }
  }

  lemma {:induction false} StepBrings(st: Progress, m: Message, mode: ReplayMode, turn: nat, messages: seq<Message>)
      returns (more: seq<Tagged>)
    requires turn < |messages| && messages[turn] == m && Step(st, m, mode, turn).Ok?
    requires PendingHolds(st, turn, messages, mode)
    ensures Step(st, m, mode, turn).value.out == st.out + more && Brings(more, turn, Direct(m, mode), messages, mode)
    ensures PendingHolds(Step(st, m, mode, turn).value, turn + 1, messages, mode)
  {
    StillHolds(st, turn, messages, mode);
    if m.content.Blocks? && m.role == User {
      more := UserStepBrings(st, m.content.blocks, turn, messages, mode);
      StillHolds(UserStep(st, m.content.blocks, turn), turn, messages, mode);
      hide Brings, UserStep, PendingHolds, UserSaid;
    } else if m.content.Blocks? && m.role == System {
      more := [];
      BringsNothing(turn, messages, mode);
      assert st.out + [] == st.out;
      hide Brings, PendingHolds;
    } else if m.content.Blocks? {
      AssistantStepIs(st, m, mode, turn);
      AssistantHolds(AssistantStep(st, m.content.blocks, CleanReasoning(m.reasoning), mode, turn), m, mode, turn,
          messages);
      hide Brings, AssistantStep, Direct, PutOff, PendingHolds;
      var flushed := FlushBrings(st, turn, messages, mode);
      more := AddDirect(flushed, Direct(m, mode)[0], turn, messages, mode);
      assert Direct(m, mode) == [Direct(m, mode)[0]];
      assert st.out + flushed + [Tagged(Direct(m, mode)[0], Conversion.Direct(turn))] == st.out + more;
    } else {
      more := PlainBrings(st, m, mode, turn, messages);
    }
  }

  lemma AddDirect(flushed: seq<Tagged>, message: OutMessage, turn: nat, messages: seq<Message>, mode: ReplayMode)
      returns (more: seq<Tagged>)
    requires Brings(flushed, turn, [], messages, mode)
    ensures more == flushed + [Tagged(message, Conversion.Direct(turn))]
            && Brings(more, turn, [message], messages, mode)
  {
    BringsOne(message, turn, messages, mode);
    more := flushed + [Tagged(message, Conversion.Direct(turn))];
    hide Brings;
    BringsMore(flushed, [Tagged(message, Conversion.Direct(turn))], turn, [], [message], messages, mode);
    assert [] + [message] == [message];
  }

  lemma AssistantHolds(t: Progress, m: Message, mode: ReplayMode, turn: nat, messages: seq<Message>)
    requires turn < |messages| && messages[turn] == m
    requires t.pending.Some? ==>
               && t.pending.value.turn == turn && |PutOff(m, mode)| == 1
               && DeferredMessages(t.pending.value) == [Tagged(PutOff(m, mode)[0], Deferred(turn))]
    ensures PendingHolds(t, turn + 1, messages, mode)
  {
    hide PutOff;
    assert t.pending.Some? ==> PutOff(m, mode) == [PutOff(m, mode)[0]];
    hide DeferredMessages;
  }

  lemma StillHolds(st: Progress, turn: nat, messages: seq<Message>, mode: ReplayMode)
    requires PendingHolds(st, turn, messages, mode)
    ensures PendingHolds(st, turn + 1, messages, mode)
  {
    hide PutOff;
    if st.pending.Some? {
      forall t | t in DeferredMessages(st.pending.value)
        ensures PutOffBy(t, turn + 1, messages, mode)
      {
        assert PutOffBy(t, turn, messages, mode);
      }
    }
  }

  /** A message that is no list of blocks. */
  lemma PlainBrings(st: Progress, m: Message, mode: ReplayMode, turn: nat, messages: seq<Message>)
      returns (more: seq<Tagged>)
    requires !m.content.Blocks? && PendingHolds(st, turn, messages, mode)
    ensures Step(st, m, mode, turn).Ok? && Step(st, m, mode, turn).value.out == st.out + more
    ensures Brings(more, turn, Direct(m, mode), messages, mode)
    ensures PendingHolds(Step(st, m, mode, turn).value, turn + 1, messages, mode)
  {
    StillHolds(st, turn, messages, mode);
    if m.content.Str? {
      StringAgrees(m, mode);
    }
    var message := if m.content.Str? then StringMessage(m, mode) else Chat(m.role, m.content.text, [], None);
    assert Direct(m, mode) == [message];
    hide Brings, StringMessage, Direct, PendingHolds;
    var flushed: seq<Tagged> := [];
    if m.role == User {
      flushed := FlushBrings(st, turn, messages, mode);
      NonePending(Flush(st), turn + 1, messages, mode);
    } else {
      BringsNothing(turn, messages, mode);
      assert st.out + [] == st.out;
    }
    more := AddDirect(flushed, message, turn, messages, mode);
    assert st.out + flushed + [Tagged(message, Conversion.Direct(turn))] == st.out + more;
    var t := Step(st, m, mode, turn).value;
    OnlyPending(t, if m.role == User then Flush(st) else st, turn + 1, messages, mode);
  }

  lemma NonePending(st: Progress, turn: nat, messages: seq<Message>, mode: ReplayMode)
    requires st.pending.None?
    ensures PendingHolds(st, turn, messages, mode)
  {
  }

  lemma OnlyPending(t: Progress, st: Progress, turn: nat, messages: seq<Message>, mode: ReplayMode)
    requires t.pending == st.pending && PendingHolds(st, turn, messages, mode)
    ensures PendingHolds(t, turn, messages, mode)
  {
  }

  // --- whole conversations ------------------------------------------------------------------------

  /** Directly converted messages stand in the order of the conversation. */
  ghost predicate InOrder(out: seq<Tagged>) {
    forall i, k | 0 <= i < k < |out| && out[i].origin.Direct? && out[k].origin.Direct? ::
        out[i].origin.turn <= out[k].origin.turn
  }

  /** Of the first `n` messages everything is there, and nothing else. */
  ghost predicate Complete(out: seq<Tagged>, n: nat, messages: seq<Message>, mode: ReplayMode)
    requires n <= |messages|
  {
    && (forall turn: nat :: From(out, turn) == if turn < n then Direct(messages[turn], mode) else [])
    && Within(out, n, messages, mode) && InOrder(out)
  }

  lemma NotBrought(more: seq<Tagged>, turn: nat, said: seq<OutMessage>, messages: seq<Message>, mode: ReplayMode,
      other: nat)
    requires Brings(more, turn, said, messages, mode) && other != turn
    ensures From(more, other) == []
  {
    NoneFrom(more, other);
  }

  lemma {:induction false} NoneFrom(more: seq<Tagged>, turn: nat)
    requires forall t | t in more :: t.origin != Conversion.Direct(turn)
    ensures From(more, turn) == []
  {
    if more != [] {
      assert more[|more| - 1] in more;
      NoneFrom(more[..|more| - 1], turn);
    }
  }

  /** Everything in `out` belongs to one of the first `n` messages. */
  ghost predicate Within(out: seq<Tagged>, n: nat, messages: seq<Message>, mode: ReplayMode)
    requires n <= |messages|
  {
    forall t | t in out ::
      t.origin.turn < n && (t.origin.Deferred? ==> PutOff(messages[t.origin.turn], mode) == [t.message])
  }

  lemma WithinOne(out: seq<Tagged>, more: seq<Tagged>, n: nat, said: seq<OutMessage>, messages: seq<Message>,
      mode: ReplayMode)
    requires n < |messages| && Within(out, n, messages, mode) && Brings(more, n, said, messages, mode)
    ensures Within(out + more, n + 1, messages, mode)
  {
    hide From, PutOff;
  }

  lemma OrderOne(out: seq<Tagged>, more: seq<Tagged>, n: nat, said: seq<OutMessage>, messages: seq<Message>,
      mode: ReplayMode)
    requires n < |messages| && Within(out, n, messages, mode) && InOrder(out) && Brings(more, n, said, messages, mode)
    ensures InOrder(out + more)
  {
    hide From, PutOff;
    var all := out + more;
    forall k | 0 <= k < |more| && more[k].origin.Direct?
      ensures more[k].origin.turn == n
    {
      assert more[k] in more;
    }
    forall i | 0 <= i < |out|
      ensures out[i].origin.turn < n
    {
      assert out[i] in out;
    }
    hide Within, Brings;
  }

  lemma FromOneMore(out: seq<Tagged>, more: seq<Tagged>, n: nat, messages: seq<Message>, mode: ReplayMode, turn: nat)
    requires n < |messages| && Brings(more, n, Direct(messages[n], mode), messages, mode)
    requires From(out, turn) == if turn < n then Direct(messages[turn], mode) else []
    ensures From(out + more, turn) == if turn < n + 1 then Direct(messages[turn], mode) else []
  {
    FromAppend(out, more, turn);
    if turn != n {
      NotBrought(more, n, Direct(messages[n], mode), messages, mode, turn);
      hide From, Direct;
      assert From(out, turn) + [] == From(out, turn);
    } else {
      hide From, Direct, PutOffBy;
      assert [] + Direct(messages[n], mode) == Direct(messages[n], mode);
    }
  }

  lemma CompleteOne(out: seq<Tagged>, more: seq<Tagged>, n: nat, messages: seq<Message>, mode: ReplayMode)
    requires n < |messages| && Complete(out, n, messages, mode)
             && Brings(more, n, Direct(messages[n], mode), messages, mode)
    ensures Complete(out + more, n + 1, messages, mode)
  {
    hide Direct, From, Brings, InOrder, Within;
    forall turn: nat
      ensures From(out + more, turn) == if turn < n + 1 then Direct(messages[turn], mode) else []
    {
      FromOneMore(out, more, n, messages, mode, turn);
    }
    WithinOne(out, more, n, Direct(messages[n], mode), messages, mode);
    OrderOne(out, more, n, Direct(messages[n], mode), messages, mode);
  }

  lemma {:induction false} ScanIsComplete(messages: seq<Message>, mode: ReplayMode, n: nat)
    requires n <= |messages| && Scan(messages[..n], mode).Ok?
    ensures var st := Scan(messages[..n], mode).value;
            Complete(st.out, n, messages, mode) && PendingHolds(st, n, messages, mode)
  {
    hide Step, Direct, PutOff;
    if n > 0 {
      assert messages[..n][..n - 1] == messages[..n - 1];
      ScanIsComplete(messages, mode, n - 1);
      var st := Scan(messages[..n - 1], mode).value;
      hide Complete, PendingHolds, Brings, Scan;
      assert Scan(messages[..n], mode) == Step(st, messages[n - 1], mode, n - 1) by {
        ScanUnfolds(messages[..n], mode);
      }
      var more := StepBrings(st, messages[n - 1], mode, n - 1, messages);
      CompleteOne(st.out, more, n - 1, messages, mode);
    }
  }

  lemma ScanUnfolds(messages: seq<Message>, mode: ReplayMode)
    requires messages != [] && Scan(messages, mode).Ok?
    ensures Scan(messages[..|messages| - 1], mode).Ok?
    ensures Scan(messages, mode) ==
              Step(Scan(messages[..|messages| - 1], mode).value, messages[|messages| - 1], mode, |messages| - 1)
  {
    hide Step;
  }

  /** Every accepted conversation: each message becomes, at its place and in the
      order of the conversation, exactly the chat messages its blocks give, with
      every text, and what stands behind tool calls is put off as its blocks give
      it; nothing else is said. */
  lemma ConversationIsSaid(messages: seq<Message>, mode: ReplayMode)
    requires Convert(messages, mode).Ok?
    ensures Complete(Convert(messages, mode).value, |messages|, messages, mode)
  {
    assert messages[..|messages|] == messages;
    ScanIsComplete(messages, mode, |messages|);
    var st := Scan(messages, mode).value;
    hide Scan, Direct, PutOff;
    if st.pending.Some? {
      FlushedComplete(st, messages, mode);
    }
  }

  lemma NoMoreFrom(out: seq<Tagged>, d: seq<Tagged>, turn: nat)
    requires forall t | t in d :: t.origin.Deferred?
    ensures From(out + d, turn) == From(out, turn)
  {
    FromAppend(out, d, turn);
    NoneFrom(d, turn);
    hide From;
    assert From(out, turn) + [] == From(out, turn);
  }

  lemma FlushedComplete(st: Progress, messages: seq<Message>, mode: ReplayMode)
    requires st.pending.Some? && Complete(st.out, |messages|, messages, mode)
             && PendingHolds(st, |messages|, messages, mode)
    ensures Complete(Flush(st).out, |messages|, messages, mode)
  {
    hide Direct, PutOff, From, DeferredMessages;
    var d := DeferredMessages(st.pending.value);
    forall t | t in d
      ensures t.origin.Deferred? && t.origin.turn < |messages|
              && PutOff(messages[t.origin.turn], mode) == [t.message]
    {
      assert PutOffBy(t, |messages|, messages, mode);
    }
    hide PendingHolds, PutOffBy, Holds;
    forall turn: nat
      ensures From(st.out + d, turn) == From(st.out, turn)
    {
      NoMoreFrom(st.out, d, turn);
    }
    var all := st.out + d;
    assert InOrder(all) by {
      LaterDeferred(st.out, d);
    }
    assert Within(all, |messages|, messages, mode);
  }

  lemma LaterDeferred(out: seq<Tagged>, d: seq<Tagged>)
    requires InOrder(out) && forall t | t in d :: t.origin.Deferred?
    ensures InOrder(out + d)
  {
    forall k | 0 <= k < |d|
      ensures d[k].origin.Deferred?
    {
      assert d[k] in d;
    }
  }

  /** In particular no text of a user is lost: all the texts and answers of a list
      of blocks come out, joined line by line between answers. */
  lemma UserTextIsKept(messages: seq<Message>, mode: ReplayMode, turn: nat)
    requires Convert(messages, mode).Ok? && turn < |messages|
    requires messages[turn].role == User && messages[turn].content.Blocks?
    ensures From(Convert(messages, mode).value, turn) == UserSaid(messages[turn].content.blocks)
  {
    ConversationIsSaid(messages, mode);
    hide Convert, From, UserSaid;
  }
}
