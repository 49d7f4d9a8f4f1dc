/** What becomes of the text of a response: with a heuristic parser that finds no
    tools, text and thinking reach the client as one scan of the whole text for
    think tags reads them. */
module TransportText {
  import opened Common
  import opened StreamContract
  import opened ThinkTags
  import opened OpenAiTransport
  import opened TransportTranscript

  /** The heuristic parser passes every text on at once and finds no tools. */
  ghost predicate Transparent(env: Env) {
    && (forall fed: seq<string> | fed != [] :: env.heuristic(fed) == (fed[|fed| - 1], []))
    && (forall fed :: env.heuristicFlush(fed) == [])
  }

  // --- parts of the text --------------------------------------------------------------------

  /** The characters of one kind. */
  function CharsOf(items: seq<Item>, thinking: bool): string {
    if items == [] then ""
    else
      var last := items[|items| - 1];
      CharsOf(items[..|items| - 1], thinking) + if last.Ch? && last.thinking == thinking then [last.c] else ""
  }

  lemma {:induction false} ItemsAppend(a: seq<Item>, b: seq<Item>, thinking: bool)
    ensures CharsOf(a + b, thinking) == CharsOf(a, thinking) + CharsOf(b, thinking)
  {
    if b == [] {
      assert a + b == a;
    } else {
      var front, last := b[..|b| - 1], b[|b| - 1];
      assert (a + b)[..|a + b| - 1] == a + front;
      ItemsAppend(a, front, thinking);
      var one := if last.Ch? && last.thinking == thinking then [last.c] else "";
      assert CharsOf(a, thinking) + CharsOf(front, thinking) + one ==
          CharsOf(a, thinking) + (CharsOf(front, thinking) + one);
    }
  }

  lemma {:induction false} CharsOfTyped(s: string, kind: bool, thinking: bool)
    ensures CharsOf(Typed(s, kind), thinking) == if kind == thinking then s else ""
  {
    if s != "" {
      CharsOfTyped(s[..|s| - 1], kind, thinking);
      assert Typed(s, kind)[..|s| - 1] == Typed(s[..|s| - 1], kind);
      assert s == s[..|s| - 1] + [s[|s| - 1]];
    }
  }

  /** The text or the thinking in some chunks of the tag parser. */
  function Words(parts: seq<ContentChunk>, thinking: bool): string {
    CharsOf(TypedChunks(parts), thinking)
  }

  lemma WordsAppend(a: seq<ContentChunk>, b: seq<ContentChunk>, thinking: bool)
    ensures Words(a + b, thinking) == Words(a, thinking) + Words(b, thinking)
  {
    TypedAppend(a, b);
    ItemsAppend(TypedChunks(a), TypedChunks(b), thinking);
  }

  lemma WordsOne(part: ContentChunk, thinking: bool)
    ensures Words([part], thinking) == if part.thinking == thinking then part.content else ""
  {
    assert [part][..0] == [];
    var typed := Typed(part.content, part.thinking);
    assert TypedChunks([part]) == [] + typed == typed;
    CharsOfTyped(part.content, part.thinking, thinking);
  }

  function Thoughts(env: Env, parts: seq<ContentChunk>): string {
    if env.thinking then Words(parts, true) else ""
  }

  lemma Associate(a: string, b: string, c: string)
    ensures a + b + c == a + (b + c)
  {
  }

  lemma NoWords()
    ensures Words([], false) == "" && Words([], true) == ""
  {
  }

  // --- a whole response ---------------------------------------------------------------------

  /** What the last of some fragments makes the tag parser yield. */
  function NewParts(fragments: seq<string>): seq<ContentChunk>
    requires fragments != []
  {
    var (_, buffer, inside) := FeedAll(fragments[..|fragments| - 1]);
    FeedLoop(buffer + fragments[|fragments| - 1], inside).0
  }

  /** Reasoning fields and thinking in think tags, as they come; of one chunk the
      field comes first. */
  function Thought(chunks: seq<Chunk>): string {
    if chunks == [] then ""
    else
      var before, last := Thought(chunks[..|chunks| - 1]), chunks[|chunks| - 1];
      if !last.hasDelta then before
      else before + last.reasoning + if last.content != "" then Words(NewParts(Heard(chunks)), true) else ""
  }

  /** The same, with what the tag parser held back to the end. */
  function AllThought(chunks: seq<Chunk>): string {
    var (_, buffer, inside) := FeedAll(Heard(chunks));
    Thought(chunks) + if inside then buffer else ""
  }

  lemma ThoughtOne(chunks: seq<Chunk>, chunk: Chunk)
    requires chunk.hasDelta
    ensures var (_, buffer, inside) := FeedAll(Heard(chunks));
            Thought(chunks + [chunk]) ==
              Thought(chunks) + chunk.reasoning + Words(MoreParts(buffer, inside, chunk.content), true)
  {
    assert (chunks + [chunk])[..|chunks|] == chunks;
    HeardOne(chunks, chunk);
    NoWords();
    hide Words, FeedAll, FeedLoop;
    if chunk.content != "" {
      assert (Heard(chunks) + [chunk.content])[..|Heard(chunks)|] == Heard(chunks);
    }
  }

  // --- the words of the transcript --------------------------------------------------------------

  lemma {:induction false} FoundHasNoWords(tools: seq<HeuristicTool>, thinking: bool)
    ensures Chars(Found(tools), thinking) == ""
  {
    if tools != [] {
      FoundHasNoWords(tools[..|tools| - 1], thinking);
      var last := tools[|tools| - 1];
      CharsOfTool(Block(ToolUse, "", Given(last.id), last.name, "{}"), thinking);
      CharsAppend(Found(tools[..|tools| - 1]), [Tool(Block(ToolUse, "", Given(last.id), last.name, "{}"))], thinking);
    }
  }

  lemma {:induction false} OpeningsHaveNoWords(log: seq<(int, ToolDelta)>, tcs: seq<ToolDelta>, thinking: bool)
    ensures Chars(Openings(log, tcs), thinking) == ""
  {
    if tcs != [] {
      var front := tcs[..|tcs| - 1];
      OpeningsHaveNoWords(log, front, thinking);
      var before, entry := Logged(log, front), Entry(Logged(log, front), tcs[|tcs| - 1]);
      OpeningHasNoWords(before, entry.0, entry.1, thinking);
      CharsAppend(Openings(log, front), Opening(before, entry.0, entry.1), thinking);
      hide Opening, Chars;
    }
  }

  lemma OpeningHasNoWords(log: seq<(int, ToolDelta)>, t: int, tc: ToolDelta, thinking: bool)
    ensures Chars(Opening(log, t, tc), thinking) == ""
  {
    var said := Opening(log, t, tc);
    if said != [] {
      CharsOfTool(said[0].block, thinking);
    }
  }

  /** Thinking is said only if it is enabled. */
  function Allowed(env: Env, thinking: bool, s: string): string {
    if thinking && !env.thinking then "" else s
  }

  lemma PartWords(env: Env, fed: seq<string>, part: ContentChunk, thinking: bool)
    requires Transparent(env)
    ensures Chars(PartSaid(env, fed, part), thinking) == Allowed(env, thinking, Words([part], thinking))
  {
    WordsOne(part, thinking);
    CharsOfSay(part.content, part.thinking, thinking);
    if !part.thinking {
      assert env.heuristic(fed + [part.content]) == (part.content, []);
      assert Say(part.content, false) + [] == Say(part.content, false);
    }
    hide Words, Say, Transparent;
  }

  lemma AllowedAppend(env: Env, thinking: bool, a: string, b: string)
    ensures Allowed(env, thinking, a) + Allowed(env, thinking, b) == Allowed(env, thinking, a + b)
  {
  }

  lemma {:induction false} PartsWords(env: Env, fed: seq<string>, parts: seq<ContentChunk>, thinking: bool)
    requires Transparent(env)
    ensures Chars(PartsSaid(env, fed, parts), thinking) == Allowed(env, thinking, Words(parts, thinking))
  {
    hide Words, Chars, PartSaid, Transparent, Allowed;
    if parts == [] {
      NoneSaid(env, thinking);
    } else {
      var front, last := parts[..|parts| - 1], parts[|parts| - 1];
      assert parts == front + [last];
      PartsWords(env, fed, front, thinking);
      PartWords(env, fed + TransportTranscript.Fed(front), last, thinking);
      WordsAppend(front, [last], thinking);
      AllowedAppend(env, thinking, Words(front, thinking), Words([last], thinking));
      CharsAppend(PartsSaid(env, fed, front), PartSaid(env, fed + TransportTranscript.Fed(front), last), thinking);
    }
  }

  lemma NoneSaid(env: Env, thinking: bool)
    ensures Chars([], thinking) == "" == Allowed(env, thinking, Words([], thinking))
  {
    NoWords();
  }

  lemma ReasoningWords(env: Env, reasoning: string, thinking: bool)
    ensures Chars(if env.thinking then Say(reasoning, true) else [], thinking) ==
              Allowed(env, thinking, if thinking then reasoning else "")
  {
    CharsOfSay(reasoning, true, thinking);
    hide Say;
  }

  lemma ChunkWords(env: Env, before: seq<Chunk>, chunk: Chunk, thinking: bool)
    requires Transparent(env)
    ensures var (_, buffer, inside) := FeedAll(Heard(before));
            Chars(ChunkSaid(env, before, chunk), thinking) ==
              Allowed(env, thinking, (if thinking then chunk.reasoning else "")
                                     + Words(MoreParts(buffer, inside, chunk.content), thinking))
  {
    hide Words, Say, PartsSaid, Openings, FeedAll, MoreParts, Heard, LogOf, Chars, Transparent, Allowed;
    var (parts, buffer, inside) := FeedAll(Heard(before));
    var more := MoreParts(buffer, inside, chunk.content);
    var reasoning := if env.thinking then Say(chunk.reasoning, true) else [];
    var text, tools := PartsSaid(env, TransportTranscript.Fed(parts), more), Openings(LogOf(before), chunk.tools);
    PartsWords(env, TransportTranscript.Fed(parts), more, thinking);
    ReasoningWords(env, chunk.reasoning, thinking);
    OpeningsHaveNoWords(LogOf(before), chunk.tools, thinking);
    CharsAppend(reasoning + text, tools, thinking);
    CharsAppend(reasoning, text, thinking);
    AllowedAppend(env, thinking, if thinking then chunk.reasoning else "", Words(more, thinking));
    assert Chars(reasoning + text, thinking) + "" == Chars(reasoning + text, thinking);
  }

  /** The text, or the thinking, that the parsers have yielded. */
  function Yielded(chunks: seq<Chunk>, thinking: bool): string {
    if thinking then Thought(chunks) else Words(FeedAll(Heard(chunks)).0, false)
  }

  lemma YieldedOne(chunks: seq<Chunk>, chunk: Chunk, thinking: bool)
    ensures var (_, buffer, inside) := FeedAll(Heard(chunks));
            Yielded(chunks + [chunk], thinking) ==
              Yielded(chunks, thinking)
              + if chunk.hasDelta
                then (if thinking then chunk.reasoning else "") + Words(MoreParts(buffer, inside, chunk.content),
                    thinking)
                else ""
  {
    hide Words, FeedAll, Heard, MoreParts, HeldAfter;
    var (parts, buffer, inside) := FeedAll(Heard(chunks));
    var more := MoreParts(buffer, inside, chunk.content);
    assert (chunks + [chunk])[..|chunks|] == chunks;
    if chunk.hasDelta {
      ThoughtOne(chunks, chunk);
      FedOne(chunks, chunk);
      WordsAppend(parts, more, false);
      hide Thought;
      Associate(Thought(chunks), chunk.reasoning, Words(more, true));
      assert "" + Words(more, false) == Words(more, false);
    } else {
      HeardOne(chunks, chunk);
      assert Heard(chunks) + [] == Heard(chunks) && Yielded(chunks, thinking) + "" == Yielded(chunks, thinking);
    }
  }

  lemma {:induction false} TranscriptWords(env: Env, chunks: seq<Chunk>, thinking: bool)
    requires Transparent(env)
    ensures Chars(Transcript(env, chunks), thinking) == Allowed(env, thinking, Yielded(chunks, thinking))
  {
    hide Chars, ChunkSaid, FeedAll, Heard, MoreParts, Transparent, Yielded, Allowed, Words;
    if chunks == [] {
      NothingYielded(env, thinking);
    } else {
      var front, chunk := chunks[..|chunks| - 1], chunks[|chunks| - 1];
      assert chunks == front + [chunk];
      TranscriptWords(env, front, thinking);
      YieldedOne(front, chunk, thinking);
      var (_, buffer, inside) := FeedAll(Heard(front));
      if chunk.hasDelta {
        ChunkWords(env, front, chunk, thinking);
        CharsAppend(Transcript(env, front), ChunkSaid(env, front, chunk), thinking);
        AllowedAppend(env, thinking, Yielded(front, thinking),
                      (if thinking then chunk.reasoning else "")
                      + Words(MoreParts(buffer, inside, chunk.content), thinking));
      } else {
        assert Transcript(env, front) + [] == Transcript(env, front);
        assert Yielded(front, thinking) + "" == Yielded(front, thinking);
      }
    }
  }

  lemma NothingYielded(env: Env, thinking: bool)
    ensures Chars(Transcript(env, []), thinking) == Allowed(env, thinking, Yielded([], thinking))
  {
    NoWords();
  }

  lemma FlushedWords(parts: seq<ContentChunk>, buffer: string, inside: bool)
    ensures Words(parts + FlushChunk(buffer, inside), false) == Words(parts, false) + if inside then "" else buffer
    ensures Words(parts + FlushChunk(buffer, inside), true) == Words(parts, true) + if inside then buffer else ""
  {
    WordsAppend(parts, FlushChunk(buffer, inside), false);
    WordsAppend(parts, FlushChunk(buffer, inside), true);
    NoWords();
    if buffer != "" {
      WordsOne(ContentChunk(inside, buffer), false);
      WordsOne(ContentChunk(inside, buffer), true);
    }
  }

  /** The text and the thinking of a response that ends normally: the text is what
      one scan of all the content for think tags leaves outside of them, with a
      blank where there would be none; the thinking is all the reasoning and all
      that stands inside of them, as it came, or nothing when it is disabled. */
  lemma ResponseText(env: Env, chunks: seq<Chunk>, message: string)
    requires Transparent(env) && !ProcessChunks(env, chunks).failed
    ensures var out := StreamResponse(env, chunks, false, message).emitted;
            var text := CharsOf(View(ThinkTags.Join(Heard(chunks)), false).0, false);
            var thought := if env.thinking then AllThought(chunks) else "";
            && TextContent(out) == text + StandIn(ToolNamed(LogOf(chunks)), text, thought)
            && ThinkingContent(out) == thought
  {
    var (parts, buffer, inside) := FeedAll(Heard(chunks));
    var said, hasTool := Transcript(env, chunks), ToolNamed(LogOf(chunks));
    ResponseTranscript(env, chunks, false, message);
    ContentIsSaid(StreamResponse(env, chunks, false, message).emitted);
    TranscriptWords(env, chunks, false);
    TranscriptWords(env, chunks, true);
    ParserMatchesReference(Heard(chunks));
    FlushedWords(parts, buffer, inside);
    var text := CharsOf(View(ThinkTags.Join(Heard(chunks)), false).0, false);
    assert text == Words(parts, false) + if inside then "" else buffer;
    EndWords(env, said, buffer, inside, TransportTranscript.Fed(parts), hasTool);
  }

  /** The text and the thinking at the end. */
  lemma EndWords(env: Env, said: seq<Utterance>, buffer: string, inside: bool, fed: seq<string>, hasTool: bool)
    requires Transparent(env)
    ensures var text := Chars(said, false) + if inside then "" else buffer;
            var thought := Chars(said, true) + if inside && env.thinking then buffer else "";
            var end := EndSaid(env, said, buffer, inside, fed, hasTool);
            Chars(end, false) == text + StandIn(hasTool, text, thought) && Chars(end, true) == thought
  {
    var held := HeldSaid(env, buffer, inside);
    assert env.heuristicFlush(fed) == [];
    var whole := said + held;
    assert whole + Found([]) == whole;
    CharsAppend(said, held, false);
    CharsAppend(said, held, true);
    CharsOfSay(buffer, inside, false);
    CharsOfSay(buffer, inside, true);
    var blank := StandIn(hasTool, Chars(whole, false), Chars(whole, true));
    CharsAppend(whole, Say(blank, false), false);
    CharsAppend(whole, Say(blank, false), true);
    CharsOfSay(blank, false, false);
    CharsOfSay(blank, false, true);
    hide Say, StandIn, Transparent;
    assert Chars(said, true) + "" == Chars(said, true) && Chars(whole, true) + "" == Chars(whole, true);
  }

  // --- where the thinking comes from ----------------------------------------------------------

  /** The reasoning fields alone. */
  function Reasonings(chunks: seq<Chunk>): string {
    if chunks == [] then ""
    else
      var last := chunks[|chunks| - 1];
      Reasonings(chunks[..|chunks| - 1]) + if last.hasDelta then last.reasoning else ""
  }

  lemma {:induction false} OnlyReasoning(lead: seq<Chunk>)
    requires forall chunk | chunk in lead && chunk.hasDelta :: chunk.content == ""
    ensures Heard(lead) == [] && Thought(lead) == Reasonings(lead)
  {
    if lead != [] {
      var front := lead[..|lead| - 1];
      assert lead[|lead| - 1] in lead && forall chunk | chunk in front :: chunk in lead;
      OnlyReasoning(front);
      assert Thought(front) + lead[|lead| - 1].reasoning + "" == Thought(front) + lead[|lead| - 1].reasoning;
    }
  }

  lemma {:induction false} ThenContent(lead: seq<Chunk>, rest: seq<Chunk>)
    requires forall chunk | chunk in lead && chunk.hasDelta :: chunk.content == ""
    requires forall chunk | chunk in rest && chunk.hasDelta :: chunk.reasoning == ""
    ensures Heard(lead + rest) == Heard(rest)
    ensures Thought(lead + rest) == Reasonings(lead) + Words(FeedAll(Heard(rest)).0, true)
  {
    if rest == [] {
      assert lead + rest == lead;
      OnlyReasoning(lead);
      NoWords();
    } else {
      var front, chunk := rest[..|rest| - 1], rest[|rest| - 1];
      assert rest == front + [chunk] && chunk in rest && lead + rest == (lead + front) + [chunk];
      assert forall k | k in front :: k in rest;
      ThenContent(lead, front);
      HeardOne(lead + front, chunk);
      HeardOne(front, chunk);
      if chunk.hasDelta {
        ThoughtOne(lead + front, chunk);
        FedOne(front, chunk);
        var (parts, buffer, inside) := FeedAll(Heard(front));
        var more := MoreParts(buffer, inside, chunk.content);
        WordsAppend(parts, more, true);
        hide Words, FeedAll, Thought, Heard, MoreParts, HeldAfter;
        assert Thought(lead + front) + "" == Thought(lead + front);
        Associate(Reasonings(lead), Words(parts, true), Words(more, true));
      } else {
        hide Words, FeedAll;
        assert (lead + rest)[..|lead + front|] == lead + front && Heard(front) + [] == Heard(front);
      }
    }
  }

  /** When the reasoning fields come before all content, as they do where a model
      thinks first, the thinking is theirs, and then what one scan of all the
      content finds inside think tags. */
  lemma ReasoningThenScan(lead: seq<Chunk>, rest: seq<Chunk>)
    requires forall chunk | chunk in lead && chunk.hasDelta :: chunk.content == ""
    requires forall chunk | chunk in rest && chunk.hasDelta :: chunk.reasoning == ""
    ensures AllThought(lead + rest) ==
              Reasonings(lead) + CharsOf(View(ThinkTags.Join(Heard(lead + rest)), false).0, true)
  {
    ThenContent(lead, rest);
    ParserMatchesReference(Heard(rest));
    var (parts, buffer, inside) := FeedAll(Heard(rest));
    FlushedWords(parts, buffer, inside);
    hide FeedAll, Heard, Thought, Reasonings;
    Associate(Reasonings(lead), Words(parts, true), if inside then buffer else "");
  }
}
