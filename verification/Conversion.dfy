/** The conversion of Anthropic messages to OpenAI chat messages, as functions
    (proxy/core/anthropic/conversion.py). */
module Conversion {
  import opened Common

  datatype ReplayMode = Disabled | ThinkTags | ReasoningContent

  datatype Role = User | Assistant | System

  /** Tool results as the client sends them; JSON dumps are given as text. */
  datatype ResultItem = TextItem(text: string) | OtherItem(dump: string)
  datatype ResultContent =
    | NoContent | StrContent(text: string) | ItemList(items: seq<ResultItem>) | OtherResult(dump: string)

  datatype Block =
    | Text(text: string)
    | Thinking(thinking: string)
    | RedactedThinking
    | ToolUse(id: Option<string>, name: string, arguments: string)
    | ToolResult(answers: Option<string>, content: ResultContent)
    | Image
    | ServerTool
    | UnknownBlock

  datatype Content = Str(text: string) | Blocks(blocks: seq<Block>) | OtherContent(text: string)

  datatype Message = Message(role: Role, content: Content, reasoning: Option<string>)

  datatype Call = Call(id: Option<string>, name: string, arguments: string)

  datatype OutMessage =
    | Chat(role: Role, text: string, calls: seq<Call>, reasoning: Option<string>)
    | ToolAnswer(id: Option<string>, text: string)

  /** Where a message comes from: from message `turn` itself, or from the content
      after the tool calls of assistant message `turn`, which was put off. */
  datatype Origin = Direct(turn: nat) | Deferred(turn: nat)

  datatype Tagged = Tagged(message: OutMessage, origin: Origin)

  datatype Result<T> = Ok(value: T) | Refused

  // --- text ----------------------------------------------------------------------------------

  function Join(parts: seq<string>, separator: string): string {
    if parts == [] then ""
    else if |parts| == 1 then parts[0]
    else Join(parts[..|parts| - 1], separator) + separator + parts[|parts| - 1]
  }

  function ItemText(item: ResultItem): string {
    if item.TextItem? then item.text else item.dump
  }

  function ItemTexts(items: seq<ResultItem>): seq<string> {
    if items == [] then [] else ItemTexts(items[..|items| - 1]) + [ItemText(items[|items| - 1])]
  }

  function SerializeResult(content: ResultContent): string {
    match content
    case NoContent => ""
    case StrContent(text) => text
    case ItemList(items) => Join(ItemTexts(items), "\n")
    case OtherResult(dump) => dump
  }

  function ThinkTagContent(reasoning: string): string {
    "<think>\n" + reasoning + "\n</think>"
  }

  function CleanReasoning(reasoning: Option<string>): Option<string> {
    if reasoning == Some("") then None else reasoning
  }

  // --- assistant messages ------------------------------------------------------------------------

  predicate Forbidden(block: Block) {
    block.Image? || block.ServerTool?
  }

  predicate NoForbidden(blocks: seq<Block>) {
    forall block | block in blocks :: !Forbidden(block)
  }

  function TextParts(blocks: seq<Block>, mode: ReplayMode): seq<string> {
    if blocks == [] then []
    else
      var block := blocks[|blocks| - 1];
      TextParts(blocks[..|blocks| - 1], mode)
      + if block.Text? then [block.text]
        else if block.Thinking? && mode == ThinkTags then [ThinkTagContent(block.thinking)]
        else []
  }

  function ThinkingParts(blocks: seq<Block>): seq<string> {
    if blocks == [] then []
    else
      var block := blocks[|blocks| - 1];
      ThinkingParts(blocks[..|blocks| - 1]) + if block.Thinking? then [block.thinking] else []
  }

  function Calls(blocks: seq<Block>): seq<Call> {
    if blocks == [] then []
    else
      var block := blocks[|blocks| - 1];
      Calls(blocks[..|blocks| - 1]) + if block.ToolUse? then [Call(block.id, block.name, block.arguments)] else []
  }

  function Replayed(blocks: seq<Block>, reasoning: Option<string>, mode: ReplayMode): Option<string> {
    if mode != ReasoningContent then None
    else CleanReasoning(if reasoning.Some? then reasoning else Some(Join(ThinkingParts(blocks), "\n")))
  }

  /** An assistant message of blocks without forbidden ones. */
  function AssistantMessage(blocks: seq<Block>, reasoning: Option<string>, mode: ReplayMode): OutMessage {
    var text := Join(TextParts(blocks, mode), "\n\n");
    Chat(Assistant, if text == "" && Calls(blocks) == [] then " " else text, Calls(blocks),
         Replayed(blocks, reasoning, mode))
  }

  function FirstToolUse(blocks: seq<Block>): Option<nat> {
    if blocks == [] then None
    else
      var before := FirstToolUse(blocks[..|blocks| - 1]);
      if before.Some? then before
      else if blocks[|blocks| - 1].ToolUse? then Some(|blocks| - 1)
      else None
  }

  /** What follows the first tool call, other than tool calls. */
  function AfterFirstTool(blocks: seq<Block>, first: nat): seq<Block> {
    if blocks == [] then []
    else
      AfterFirstTool(blocks[..|blocks| - 1], first)
      + if |blocks| - 1 > first && !blocks[|blocks| - 1].ToolUse? then [blocks[|blocks| - 1]] else []
  }

  function Awaited(calls: seq<Call>): set<string> {
    set call | call in calls && call.id.Some? && !IsBlank(call.id.value) :: call.id.value
  }

  datatype Pending = Pending(remaining: set<string>, blocks: seq<Block>, reasoning: Option<string>, mode: ReplayMode,
      turn: nat)

  function DeferredMessages(p: Pending): seq<Tagged> {
    if p.blocks == [] then [] else [Tagged(AssistantMessage(p.blocks, p.reasoning, p.mode), Deferred(p.turn))]
  }

  /** The message that carries the tool calls. */
  function PreMessage(blocks: seq<Block>, first: nat, reasoning: Option<string>, mode: ReplayMode): OutMessage
    requires first < |blocks|
  {
    var calls := Calls(blocks);
    if first == 0 then Chat(Assistant, "", calls, if mode == ReasoningContent then reasoning else None)
    else
      var pre := AssistantMessage(blocks[..first], reasoning, mode);
      Chat(Assistant, if pre.text == " " then "" else pre.text, calls, pre.reasoning)
  }

  function SplitPending(blocks: seq<Block>, first: nat, reasoning: Option<string>, mode: ReplayMode,
      turn: nat): Option<Pending> {
    var after := AfterFirstTool(blocks, first);
    if after == [] then None else Some(Pending(Awaited(Calls(blocks)), after, reasoning, mode, turn))
  }

  // --- user messages ------------------------------------------------------------------------------

  predicate NoImage(blocks: seq<Block>) {
    forall block | block in blocks :: !block.Image?
  }

  function AnswerId(block: Block): string
    requires block.ToolResult?
  {
    if block.answers.Some? then block.answers.value else ""
  }

  function AnswerOf(block: Block, turn: nat): Tagged
    requires block.ToolResult?
  {
    Tagged(ToolAnswer(block.answers, SerializeResult(block.content)), Direct(turn))
  }

  function FlushTexts(out: seq<Tagged>, texts: seq<string>, turn: nat): seq<Tagged> {
    if texts == [] then out else out + [Tagged(Chat(User, Join(texts, "\n"), [], None), Direct(turn))]
  }

  datatype UserState = UserState(out: seq<Tagged>, texts: seq<string>)

  function UserBlock(u: UserState, block: Block, turn: nat): UserState {
    if block.Text? then u.(texts := u.texts + [block.text])
    else if block.ToolResult? then UserState(FlushTexts(u.out, u.texts, turn) + [AnswerOf(block, turn)], [])
    else u
  }

  function UserFold(blocks: seq<Block>, turn: nat): UserState {
    if blocks == [] then UserState([], [])
    else UserBlock(UserFold(blocks[..|blocks| - 1], turn), blocks[|blocks| - 1], turn)
  }

  function UserMessages(blocks: seq<Block>, turn: nat): seq<Tagged> {
    var u := UserFold(blocks, turn);
    FlushTexts(u.out, u.texts, turn)
  }

  datatype Injection = Injection(out: seq<Tagged>, texts: seq<string>, remaining: set<string>, cleared: bool)

  function InjectBlock(u: Injection, block: Block, p: Pending, turn: nat): Injection {
    if block.Text? then u.(texts := u.texts + [block.text])
    else if block.ToolResult? then
      var out := FlushTexts(u.out, u.texts, turn) + [AnswerOf(block, turn)];
      var remaining := u.remaining - {AnswerId(block)};
      if remaining == {} then Injection(out + DeferredMessages(p), [], remaining, true)
      else Injection(out, [], remaining, u.cleared)
    else u
  }

  /** The loop that puts the deferred content behind the last outstanding answer. */
  function InjectFold(blocks: seq<Block>, p: Pending, turn: nat): Injection {
    if blocks == [] then Injection([], [], p.remaining, false)
    else InjectBlock(InjectFold(blocks[..|blocks| - 1], p, turn), blocks[|blocks| - 1], p, turn)
  }

  // --- conversations -------------------------------------------------------------------------------

  datatype Progress = Progress(out: seq<Tagged>, pending: Option<Pending>)

  function Flush(st: Progress): Progress {
    if st.pending.Some? then Progress(st.out + DeferredMessages(st.pending.value), None) else st
  }

  function StringMessage(m: Message, mode: ReplayMode): OutMessage
    requires m.content.Str?
  {
    var reasoning := CleanReasoning(m.reasoning);
    if m.role == Assistant && reasoning.Some? && mode == ReasoningContent then
      Chat(m.role, m.content.text, [], reasoning)
    else if m.role == Assistant && reasoning.Some? && mode == ThinkTags then
      Chat(m.role, Join([ThinkTagContent(reasoning.value)] + (if m.content.text == "" then [] else [m.content.text]),
          "\n\n"), [], None)
    else Chat(m.role, m.content.text, [], None)
  }

  function AssistantStep(st: Progress, blocks: seq<Block>, reasoning: Option<string>, mode: ReplayMode,
      turn: nat): Progress {
    var base := Flush(st);
    var first := FirstToolUse(blocks);
    if first.None? then base.(out := base.out + [Tagged(AssistantMessage(blocks, reasoning, mode), Direct(turn))])
    else if first.value >= |blocks| then base
    else
      Progress(base.out + [Tagged(PreMessage(blocks, first.value, reasoning, mode), Direct(turn))],
               SplitPending(blocks, first.value, reasoning, mode, turn))
  }

  function UserStep(st: Progress, blocks: seq<Block>, turn: nat): Progress {
    if st.pending.Some? && st.pending.value.remaining != {} then
      var u := InjectFold(blocks, st.pending.value, turn);
      Progress(st.out + FlushTexts(u.out, u.texts, turn),
               if u.cleared then None else Some(st.pending.value.(remaining := u.remaining)))
    else
      var base := Flush(st);
      base.(out := base.out + UserMessages(blocks, turn))
  }

  /** One message converted. */
  function Step(st: Progress, m: Message, mode: ReplayMode, turn: nat): Result<Progress> {
    match m.content
    case Blocks(blocks) =>
      (match m.role
       case Assistant =>
         if NoForbidden(blocks) then Ok(AssistantStep(st, blocks, CleanReasoning(m.reasoning), mode, turn)) else Refused
       case User => if NoImage(blocks) then Ok(UserStep(st, blocks, turn)) else Refused
       case System => Ok(st))
    case Str(text) =>
      var base := if m.role == User then Flush(st) else st;
      Ok(base.(out := base.out + [Tagged(StringMessage(m, mode), Direct(turn))]))
    case OtherContent(text) =>
      var base := if m.role == User then Flush(st) else st;
      Ok(base.(out := base.out + [Tagged(Chat(m.role, text, [], None), Direct(turn))]))
  }

  function Scan(messages: seq<Message>, mode: ReplayMode): Result<Progress> {
    if messages == [] then Ok(Progress([], None))
    else
      match Scan(messages[..|messages| - 1], mode)
      case Refused => Refused
      case Ok(st) => Step(st, messages[|messages| - 1], mode, |messages| - 1)
  }

  function Convert(messages: seq<Message>, mode: ReplayMode): Result<seq<Tagged>> {
    match Scan(messages, mode)
    case Refused => Refused
    case Ok(st) => Ok(Flush(st).out)
  }

  function Plain(out: seq<Tagged>): seq<OutMessage> {
    if out == [] then [] else Plain(out[..|out| - 1]) + [out[|out| - 1].message]
  }
}
