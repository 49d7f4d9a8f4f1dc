/** The converter's loops, proved to compute the conversion
    (proxy/core/anthropic/conversion.py). */
module Converter {
  import opened Common
  import opened Conversion
  import T = ConversionTheorems

  lemma {:induction false} PlainAppend(a: seq<Tagged>, b: seq<Tagged>)
    ensures Plain(a + b) == Plain(a) + Plain(b)
  {
    if b == [] {
      assert a + b == a;
    } else {
      assert (a + b)[..|a + b| - 1] == a + b[..|b| - 1];
      PlainAppend(a, b[..|b| - 1]);
    }
  }

  lemma PlainOne(t: Tagged)
    ensures Plain([t]) == [t.message]
  {
    assert [t][..0] == [];
  }

  lemma PlainSnoc(out: seq<Tagged>, t: Tagged)
    ensures Plain(out + [t]) == Plain(out) + [t.message]
  {
    assert (out + [t])[..|out|] == out;
  }

  method ConvertAssistantMessage(content: seq<Block>, reasoning: Option<string>, mode: ReplayMode)
      returns (r: Result<OutMessage>)
    ensures r == if NoForbidden(content) then Ok(AssistantMessage(content, reasoning, mode)) else Refused
  {
    var contentParts, thinkingParts, calls := [], [], [];
    for i := 0 to |content|
      invariant NoForbidden(content[..i])
      invariant contentParts == TextParts(content[..i], mode) && calls == Calls(content[..i])
      invariant thinkingParts == if mode == ReasoningContent && reasoning.None? then ThinkingParts(content[..i]) else []
    {
      assert content[..i + 1][..i] == content[..i] && content[i] in content;
      var block := content[i];
      match block {
        case Text(text) => contentParts := contentParts + [text];
        case Thinking(thinking) =>
          if mode == ThinkTags {
            contentParts := contentParts + [ThinkTagContent(thinking)];
          } else if mode == ReasoningContent && reasoning.None? {
            thinkingParts := thinkingParts + [thinking];
          }
        case ToolUse(id, name, arguments) => calls := calls + [Call(id, name, arguments)];
        case Image =>
          return Refused;
        case ServerTool =>
          return Refused;
        case _ =>
      }
    }
    assert content[..|content|] == content;
    var text := Join(contentParts, "\n\n");
    if text == "" && calls == [] {
      text := " ";
    }
    var replay: Option<string> := None;
    if mode == ReasoningContent {
      var replayed := if reasoning.Some? && reasoning.value != "" then reasoning.value else Join(thinkingParts, "\n");
      if replayed != "" {
        replay := Some(replayed);
      }
    }
    r := Ok(Chat(Assistant, text, calls, replay));
  }

  /** Emits the collected text, if there is any. */
  method FlushText(result: seq<OutMessage>, texts: seq<string>, ghost out: seq<Tagged>, ghost turn: nat)
    returns (flushed: seq<OutMessage>)
    requires result == Plain(out)
    ensures flushed == Plain(FlushTexts(out, texts, turn))
  {
    flushed := result;
    if texts != [] {
      PlainSnoc(out, Tagged(Chat(User, Join(texts, "\n"), [], None), Direct(turn)));
      flushed := flushed + [Chat(User, Join(texts, "\n"), [], None)];
    }
  }

  method ConvertUserMessage(content: seq<Block>, ghost turn: nat) returns (r: Result<seq<OutMessage>>)
    ensures r == if NoImage(content) then Ok(Plain(UserMessages(content, turn))) else Refused
  {
    var result, texts := [], [];
    for i := 0 to |content|
      invariant NoImage(content[..i])
      invariant result == Plain(UserFold(content[..i], turn).out) && texts == UserFold(content[..i], turn).texts
    {
      assert content[..i + 1][..i] == content[..i] && content[i] in content;
      ghost var u := UserFold(content[..i], turn);
      match content[i] {
        case Text(text) => texts := texts + [text];
        case Image =>
          return Refused;
        case ToolResult(answers, value) =>
          result := FlushText(result, texts, u.out, turn);
          PlainSnoc(FlushTexts(u.out, u.texts, turn), AnswerOf(content[i], turn));
          result := result + [ToolAnswer(answers, SerializeResult(value))];
          texts := [];
        case _ =>
      }
    }
    assert content[..|content|] == content;
    result := FlushText(result, texts, UserFold(content, turn).out, turn);
    r := Ok(result);
  }

  class PendingAfterTools {
    var remaining: set<string>
    const blocks: seq<Block>
    const reasoning: Option<string>
    const mode: ReplayMode
    var emitted: bool
    ghost const turn: nat

    ghost function Value(): Pending
      reads this
    {
      Pending(remaining, blocks, reasoning, mode, turn)
    }

    constructor (remaining: set<string>, blocks: seq<Block>, reasoning: Option<string>, mode: ReplayMode,
        ghost turn: nat)
      ensures Value() == Pending(remaining, blocks, reasoning, mode, turn) && !emitted
    {
      this.remaining := remaining;
      this.blocks := blocks;
      this.reasoning := reasoning;
      this.mode := mode;
      this.turn := turn;
      emitted := false;
    }

    predicate NeedsDeferred()
      reads this
    {
      blocks != [] && !emitted
    }

    method DeferredMessagesOf() returns (result: seq<OutMessage>)
      requires T.NoToolUse(blocks) && NoForbidden(blocks)
      ensures result == Plain(DeferredMessages(Value()))
    {
      if blocks == [] {
        return [];
      }
      var converted := ConvertAssistantMessage(blocks, reasoning, mode);
      PlainOne(DeferredMessages(Value())[0]);
      result := [converted.value];
    }
  }

  /** A tool result during injection, and the deferred content if it was the
      last one outstanding. */
  method AnswerPending(
      result: seq<OutMessage>, block: Block, pending: PendingAfterTools, ghost u: Injection, ghost p: Pending,
          ghost turn: nat)
    returns (extended: seq<OutMessage>, cleared: bool)
    requires block.ToolResult? && result == Plain(FlushTexts(u.out, u.texts, turn))
    requires pending.Value() == p.(remaining := u.remaining) && T.NoToolUse(p.blocks) && NoForbidden(p.blocks)
    modifies pending
    ensures var v := InjectBlock(u, block, p, turn);
            && extended == Plain(v.out) && v.texts == []
            && pending.Value() == p.(remaining := v.remaining)
            && cleared == (v.remaining == {}) && pending.emitted == (cleared || old(pending.emitted))
                 && v.cleared == (cleared || u.cleared)
  {
    hide AssistantMessage, FlushTexts, T.NoToolUse, NoForbidden;
    var answer := ToolAnswer(block.answers, SerializeResult(block.content));
    ghost var out := FlushTexts(u.out, u.texts, turn) + [AnswerOf(block, turn)];
    PlainSnoc(FlushTexts(u.out, u.texts, turn), AnswerOf(block, turn));
    extended, cleared := result + [answer], false;
    var id := if block.answers.Some? then block.answers.value else "";
    if id in pending.remaining {
      pending.remaining := pending.remaining - {id};
    }
    assert pending.remaining == u.remaining - {AnswerId(block)};
    if pending.remaining == {} {
      var deferred := pending.DeferredMessagesOf();
      PlainAppend(out, DeferredMessages(p));
      extended := extended + deferred;
      pending.emitted := true;
      cleared := true;
    }
  }

  method ConvertUserMessageWithInjection(content: seq<Block>, pending: PendingAfterTools, ghost turn: nat)
    returns (r: Result<(seq<OutMessage>, bool)>)
    requires T.NoToolUse(pending.blocks) && NoForbidden(pending.blocks)
    modifies pending
    ensures r.Ok? <==> NoImage(content)
    ensures old(pending.NeedsDeferred() && pending.remaining != {}) && r.Ok? ==>
              var u := InjectFold(content, old(pending.Value()), turn);
              && r.value == (Plain(FlushTexts(u.out, u.texts, turn)), u.cleared)
              && pending.Value() == old(pending.Value()).(remaining := u.remaining) && pending.emitted == u.cleared
    ensures !old(pending.NeedsDeferred() && pending.remaining != {}) ==>
              && (r.Ok? ==> r.value == (Plain(UserMessages(content, turn)), false))
              && pending.Value() == old(pending.Value()) && pending.emitted == old(pending.emitted)
  {
    if !pending.NeedsDeferred() || pending.remaining == {} {
      var converted := ConvertUserMessage(content, turn);
      return if converted.Refused? then Refused else Ok((converted.value, false));
    }
    hide AssistantMessage, T.NoToolUse, NoForbidden, FlushTexts, DeferredMessages;
    var result, texts, cleared := [], [], false;
    ghost var p := pending.Value();
    for i := 0 to |content|
      invariant NoImage(content[..i])
      invariant result == Plain(InjectFold(content[..i], p, turn).out)
                && texts == InjectFold(content[..i], p, turn).texts
      invariant cleared == InjectFold(content[..i], p, turn).cleared == pending.emitted
      invariant pending.Value() == p.(remaining := InjectFold(content[..i], p, turn).remaining)
    {
      assert content[..i + 1][..i] == content[..i] && content[i] in content;
      ghost var u := InjectFold(content[..i], p, turn);
      match content[i] {
        case Text(text) => texts := texts + [text];
        case Image =>
          return Refused;
        case ToolResult(_, _) =>
          result := FlushText(result, texts, u.out, turn);
          var last;
          result, last := AnswerPending(result, content[i], pending, u, p, turn);
          texts, cleared := [], cleared || last;
        case _ =>
      }
    }
    assert content[..|content|] == content;
    result := FlushText(result, texts, InjectFold(content, p, turn).out, turn);
    r := Ok((result, cleared));
  }

  /** The state of the loop over the messages, as the conversion sees it. */
  ghost predicate Represents(result: seq<OutMessage>, pending: PendingAfterTools?, st: Progress)
    reads pending
  {
    && result == Plain(st.out)
    && (st.pending == if pending == null then None else Some(pending.Value()))
    && (pending != null ==> pending.NeedsDeferred() && T.NoToolUse(pending.blocks) && NoForbidden(pending.blocks))
  }

  /** Replays what is still deferred, if anything is. */
  method ReplayDeferred(result: seq<OutMessage>, pending: PendingAfterTools?, ghost st: Progress)
      returns (replayed: seq<OutMessage>)
    requires Represents(result, pending, st)
    modifies pending
    ensures Represents(replayed, null, Flush(st))
  {
    replayed := result;
    if pending != null && pending.NeedsDeferred() {
      var deferred := pending.DeferredMessagesOf();
      PlainAppend(st.out, DeferredMessages(pending.Value()));
      replayed := replayed + deferred;
      pending.emitted := true;
    }
  }

  lemma {:induction false} AfterAllowed(blocks: seq<Block>, first: nat)
    requires NoForbidden(blocks)
    ensures NoForbidden(AfterFirstTool(blocks, first))
  {
    if blocks != [] {
      AfterAllowed(blocks[..|blocks| - 1], first);
    }
  }

  method ConvertAssistantBlocks(
      result: seq<OutMessage>, pending: PendingAfterTools?, blocks: seq<Block>, reasoning: Option<string>,
          mode: ReplayMode,
      ghost st: Progress, ghost turn: nat)
    returns (r: Result<seq<OutMessage>>, next: PendingAfterTools?)
    requires Represents(result, pending, st) && CleanReasoning(reasoning) == reasoning
    modifies pending
    ensures NoForbidden(blocks) <==> r.Ok?
    ensures r.Ok? ==> Represents(r.value, next, AssistantStep(st, blocks, reasoning, mode, turn))
    ensures r.Ok? && next != null ==> fresh(next)
  {
    next := null;
    var base := ReplayDeferred(result, pending, st);
    ghost var out := Flush(st).out;
    var first := FirstToolUse(blocks);
    T.FirstIsFirst(blocks);
    if first.None? {
      var converted := ConvertAssistantMessage(blocks, reasoning, mode);
      if converted.Refused? {
        return Refused, null;
      }
      PlainSnoc(out, Tagged(AssistantMessage(blocks, reasoning, mode), Direct(turn)));
      return Ok(base + [converted.value]), null;
    }
    if !NoForbidden(blocks) {
      return Refused, null;
    }
    var pre := Chat(Assistant, "", [], if mode == ReasoningContent then reasoning else None);
    if first.value > 0 {
      var converted := ConvertAssistantMessage(blocks[..first.value], reasoning, mode);
      pre := converted.value;
    }
    pre := pre.(calls := Calls(blocks), text := if pre.text == " " then "" else pre.text);
    PlainSnoc(out, Tagged(PreMessage(blocks, first.value, reasoning, mode), Direct(turn)));
    var after := AfterFirstTool(blocks, first.value);
    if after != [] {
      T.AfterHasNoToolUse(blocks, first.value);
      AfterAllowed(blocks, first.value);
      next := new PendingAfterTools(Awaited(Calls(blocks)), after, reasoning, mode, turn);
    }
    r := Ok(base + [pre]);
  }

  method ConvertUserBlocks(
      result: seq<OutMessage>, pending: PendingAfterTools?, blocks: seq<Block>, ghost st: Progress, ghost turn: nat)
    returns (r: Result<seq<OutMessage>>, next: PendingAfterTools?)
    requires Represents(result, pending, st)
    modifies pending
    ensures NoImage(blocks) <==> r.Ok?
    ensures r.Ok? ==> Represents(r.value, next, UserStep(st, blocks, turn)) && (next != null ==> next == pending)
  {
    if pending != null && pending.remaining != {} {
      ghost var u := InjectFold(blocks, st.pending.value, turn);
      var pieces := ConvertUserMessageWithInjection(blocks, pending, turn);
      if pieces.Refused? {
        return Refused, null;
      }
      PlainAppend(st.out, FlushTexts(u.out, u.texts, turn));
      return Ok(result + pieces.value.0), if pieces.value.1 then null else pending;
    }
    var base := ReplayDeferred(result, pending, st);
    var converted := ConvertUserMessage(blocks, turn);
    if converted.Refused? {
      return Refused, null;
    }
    PlainAppend(Flush(st).out, UserMessages(blocks, turn));
    return Ok(base + converted.value), null;
  }

  method ConvertString(m: Message, mode: ReplayMode) returns (converted: OutMessage)
    requires m.content.Str?
    ensures converted == StringMessage(m, mode)
  {
    var reasoning := CleanReasoning(m.reasoning);
    converted := Chat(m.role, m.content.text, [], None);
    if m.role == Assistant && reasoning.Some? {
      if mode == ReasoningContent {
        converted := converted.(reasoning := reasoning);
      } else if mode == ThinkTags {
        var parts := [ThinkTagContent(reasoning.value)];
        if m.content.text != "" {
          parts := parts + [m.content.text];
        }
        converted := Chat(m.role, Join(parts, "\n\n"), [], None);
      }
    }
  }

  method ConvertMessages(messages: seq<Message>, mode: ReplayMode) returns (r: Result<seq<OutMessage>>)
    ensures r == match Convert(messages, mode) case Refused => Refused case Ok(out) => Ok(Plain(out))
  {
    var result: seq<OutMessage> := [];
    var pending: PendingAfterTools? := null;
    for i := 0 to |messages|
      invariant Scan(messages[..i], mode).Ok?
      invariant Represents(result, pending, Scan(messages[..i], mode).value)
      invariant pending != null ==> fresh(pending)
    {
      assert messages[..i + 1][..i] == messages[..i];
      var m := messages[i];
      ghost var st := Scan(messages[..i], mode).value;
      ghost var base := if m.role == User then Flush(st) else st;
      if m.content.Blocks? && m.role == Assistant {
        var outcome;
        outcome, pending := ConvertAssistantBlocks(result, pending, m.content.blocks, CleanReasoning(m.reasoning),
            mode, st, i);
        if outcome.Refused? {
          RefusedPrefix(messages, mode, i + 1);
          return Refused;
        }
        result := outcome.value;
      } else if m.content.Blocks? && m.role == User {
        var outcome;
        outcome, pending := ConvertUserBlocks(result, pending, m.content.blocks, st, i);
        if outcome.Refused? {
          RefusedPrefix(messages, mode, i + 1);
          return Refused;
        }
        result := outcome.value;
      } else if !m.content.Blocks? {
        if m.role == User {
          result := ReplayDeferred(result, pending, st);
          pending := null;
        }
        var converted;
        if m.content.Str? {
          converted := ConvertString(m, mode);
        } else {
          converted := Chat(m.role, m.content.text, [], None);
        }
        PlainSnoc(base.out, Tagged(converted, Direct(i)));
        result := result + [converted];
      }
    }
    assert messages[..|messages|] == messages;
    result := ReplayDeferred(result, pending, Scan(messages, mode).value);
    r := Ok(result);
  }

  lemma {:induction false} RefusedPrefix(messages: seq<Message>, mode: ReplayMode, n: nat)
    requires n <= |messages| && Scan(messages[..n], mode).Refused?
    ensures Scan(messages, mode).Refused?
  {
    if n == |messages| {
      assert messages[..n] == messages;
    } else {
      assert messages[..|messages| - 1][..n] == messages[..n];
      RefusedPrefix(messages[..|messages| - 1], mode, n);
    }
  }
}
