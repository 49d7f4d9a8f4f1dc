/** The incremental parser for `<think>` tags (proxy/core/anthropic/thinking.py)
    and the scan of the whole text it must agree with. */
module ThinkTags {
  import opened Common

  const OPEN_TAG: string := "<think>"
  const CLOSE_TAG: string := "</think>"

  // --- Python's str.find, str.rfind and str.startswith ---------------------------

  predicate TagAt(s: string, tag: string, i: nat) {
    i + |tag| <= |s| && s[i..i + |tag|] == tag
  }

  function FindFrom(s: string, tag: string, from: nat): (r: Option<nat>)
    requires from <= |s|
    ensures r.Some? ==> from <= r.value && TagAt(s, tag, r.value)
    ensures forall i | from <= i && (r.Some? ==> i < r.value) :: !TagAt(s, tag, i) || i > |s|
    decreases |s| - from
  {
    if TagAt(s, tag, from) then Some(from)
    else if from == |s| then None
    else FindFrom(s, tag, from + 1)
  }

  function Find(s: string, tag: string): Option<nat> {
    FindFrom(s, tag, 0)
  }

  function RFindBracket(s: string): (r: Option<nat>)
    ensures r.Some? ==> r.value < |s| && s[r.value] == '<'
    ensures forall i | 0 <= i < |s| && (r.Some? ==> i > r.value) :: s[i] != '<'
  {
    if s == "" then None
    else if s[|s| - 1] == '<' then Some(|s| - 1)
    else RFindBracket(s[..|s| - 1])
  }

  /** A non-empty proper prefix: more input could complete the tag. */
  predicate CouldBecome(s: string, tag: string) {
    |s| < |tag| && s == tag[..|s|]
  }

  // --- the reference: one leftmost scan of the whole text --------------------------

  datatype Item = Ch(c: char, thinking: bool) | OpenTag | CloseTag

  /** Items of `s` read from the given mode, and the mode at the end. */
  function Scan(s: string, inside: bool): (seq<Item>, bool)
    decreases |s|
  {
    if s == "" then ([], inside)
    else if !inside && "<think>" <= s then
      var (items, final) := Scan(s[7..], true);
      ([OpenTag] + items, final)
    else if "</think>" <= s then
      var (items, final) := Scan(s[8..], false);
      ([CloseTag] + items, final)
    else
      var (items, final) := Scan(s[1..], inside);
      ([Ch(s[0], inside)] + items, final)
  }

  /** The items that reach the client: tags are removed. */
  function Visible(items: seq<Item>): seq<Item> {
    if items == [] then []
    else (if items[0].Ch? then [items[0]] else []) + Visible(items[1..])
  }

  /** The text the items were read from. */
  function Restore(items: seq<Item>): string {
    if items == [] then ""
    else
      (match items[0]
       case Ch(c, _) => [c]
       case OpenTag => "<think>"
       case CloseTag => "</think>") + Restore(items[1..])
  }

  lemma {:induction false} RestoreScan(s: string, inside: bool)
    ensures Restore(Scan(s, inside).0) == s
    decreases |s|
  {
    if s != "" {
      if !inside && "<think>" <= s {
        RestoreScan(s[7..], true);
        assert s == "<think>" + s[7..];
      } else if "</think>" <= s {
        RestoreScan(s[8..], false);
        assert s == "</think>" + s[8..];
      } else {
        RestoreScan(s[1..], inside);
        assert s == [s[0]] + s[1..];
      }
    }
  }

  /** The visible items and the final mode of a scan. */
  function View(s: string, inside: bool): (seq<Item>, bool) {
    (Visible(Scan(s, inside).0), Scan(s, inside).1)
  }

  function Prepend(items: seq<Item>, view: (seq<Item>, bool)): (seq<Item>, bool) {
    (items + view.0, view.1)
  }

  function Typed(s: string, thinking: bool): seq<Item> {
    seq(|s|, i requires 0 <= i < |s| => Ch(s[i], thinking))
  }

  /** No tag that matters in this mode begins before position `k`. */
  predicate NoTagBefore(s: string, inside: bool, k: nat) {
    forall i | 0 <= i < k :: !TagAt(s, CLOSE_TAG, i) && (inside || !TagAt(s, OPEN_TAG, i))
  }

  lemma TagShift(s: string, tag: string, i: nat)
    requires 1 <= i <= |s|
    ensures TagAt(s, tag, i) <==> TagAt(s[1..], tag, i - 1)
  {
    if i + |tag| <= |s| {
      SliceOfTail(s, i, i + |tag|);
    }
  }

  lemma SliceOfTail<T>(s: seq<T>, i: nat, k: nat)
    requires 1 <= i <= k <= |s|
    ensures s[i..k] == s[1..][i - 1..k - 1]
  {
    var a, b := s[i..k], s[1..][i - 1..k - 1];
    forall j | 0 <= j < |a|
      ensures a[j] == b[j]
    {
      assert a[j] == s[i + j] && b[j] == s[1..][i - 1 + j];
    }
  }

  lemma VisibleCons(item: Item, items: seq<Item>)
    ensures Visible([item] + items) == (if item.Ch? then [item] else []) + Visible(items)
  {
    assert ([item] + items)[1..] == items;
  }

  /** Characters before the first tag are passed on as they are. */
  lemma {:induction false} SkipPlain(s: string, inside: bool, k: nat)
    requires k <= |s| && NoTagBefore(s, inside, k)
    ensures View(s, inside) == Prepend(Typed(s[..k], inside), View(s[k..], inside))
    decreases k
  {
    if k == 0 {
      assert s[0..] == s && [] + View(s, inside).0 == View(s, inside).0;
    } else {
      SkipChar(s, inside, k);
      hide NoTagBefore, View;
      SkipPlain(s[1..], inside, k - 1);
      assert s[1..][k - 1..] == s[k..];
      TypedCons(s, inside, k);
      var rest := View(s[k..], inside);
      assert [Ch(s[0], inside)] + (Typed(s[1..][..k - 1], inside) + rest.0) == Typed(s[..k], inside) + rest.0;
    }
  }

  lemma TypedCons(s: string, inside: bool, k: nat)
    requires 0 < k <= |s|
    ensures Typed(s[..k], inside) == [Ch(s[0], inside)] + Typed(s[1..][..k - 1], inside)
  {
  }

  /** A first character that begins no tag is passed on. */
  lemma SkipChar(s: string, inside: bool, k: nat)
    requires 0 < k <= |s| && NoTagBefore(s, inside, k)
    ensures NoTagBefore(s[1..], inside, k - 1)
    ensures View(s, inside) == Prepend([Ch(s[0], inside)], View(s[1..], inside))
  {
    forall i | 0 <= i < k - 1
      ensures !TagAt(s[1..], CLOSE_TAG, i) && (inside || !TagAt(s[1..], OPEN_TAG, i))
    {
      TagShift(s, CLOSE_TAG, i + 1);
      TagShift(s, OPEN_TAG, i + 1);
    }
    assert !TagAt(s, CLOSE_TAG, 0) && (inside || !TagAt(s, OPEN_TAG, 0));
    hide TagAt;
    VisibleCons(Ch(s[0], inside), Scan(s[1..], inside).0);
  }

  /** A leading tag is removed and sets the mode. */
  lemma SkipTag(s: string, inside: bool, tag: string)
    requires tag == CLOSE_TAG || (tag == OPEN_TAG && !inside)
    requires TagAt(s, tag, 0)
    ensures View(s, inside) == View(s[|tag|..], tag == OPEN_TAG)
  {
    assert s != "";
    assert tag == CLOSE_TAG ==> s[1] == '/';
    assert tag == OPEN_TAG ==> s[1] == 't';
    VisibleCons(if tag == OPEN_TAG then OpenTag else CloseTag, Scan(s[|tag|..], tag == OPEN_TAG).0);
    var rest := View(s[|tag|..], tag == OPEN_TAG).0;
    assert [] + rest == rest;
  }

  // --- one step of the parser ------------------------------------------------------------

  datatype ContentChunk = ContentChunk(thinking: bool, content: string)

  datatype ParseStep = ParseStep(chunk: Option<ContentChunk>, buffer: string, inside: bool)

  function ChunkOf(content: string, thinking: bool): Option<ContentChunk> {
    if content == "" then None else Some(ContentChunk(thinking, content))
  }

  /** Where a possible tag start at the end of the buffer begins. */
  function HoldFrom(buffer: string, inside: bool): (k: nat)
    ensures k <= |buffer|
  {
    var last := RFindBracket(buffer);
    if last.Some? then
      var potential := buffer[last.value..];
      if (!inside && CouldBecome(potential, OPEN_TAG)) || CouldBecome(potential, CLOSE_TAG)
      then last.value else |buffer|
    else |buffer|
  }

  function EmitAndHold(buffer: string, inside: bool): ParseStep {
    var k := HoldFrom(buffer, inside);
    ParseStep(ChunkOf(buffer[..k], inside), buffer[k..], inside)
  }

  function ParseOutside(buffer: string): ParseStep {
    var start := Find(buffer, OPEN_TAG);
    var orphan := Find(buffer, CLOSE_TAG);
    if orphan.Some? && (start.None? || orphan.value < start.value) then
      ParseStep(ChunkOf(buffer[..orphan.value], false), buffer[orphan.value + |CLOSE_TAG|..], false)
    else if start.None? then EmitAndHold(buffer, false)
    else ParseStep(ChunkOf(buffer[..start.value], false), buffer[start.value + |OPEN_TAG|..], true)
  }

  function ParseInside(buffer: string): ParseStep {
    var end := Find(buffer, CLOSE_TAG);
    if end.None? then EmitAndHold(buffer, true)
    else ParseStep(ChunkOf(buffer[..end.value], true), buffer[end.value + |CLOSE_TAG|..], false)
  }

  function Parse(buffer: string, inside: bool): (step: ParseStep)
    ensures |step.buffer| <= |buffer|
    ensures step.chunk.Some? ==> |step.buffer| < |buffer|
  {
    if inside then ParseInside(buffer) else ParseOutside(buffer)
  }

  /** The `feed` loop. */
  function FeedLoop(buffer: string, inside: bool): (seq<ContentChunk>, string, bool)
    decreases |buffer|
  {
    if buffer == "" then ([], "", inside)
    else
      var step := Parse(buffer, inside);
      if step.chunk.None? && |step.buffer| == |buffer| then ([], step.buffer, step.inside)
      else
        var (chunks, rest, mode) := FeedLoop(step.buffer, step.inside);
        ((if step.chunk.Some? then [step.chunk.value] else []) + chunks, rest, mode)
  }

  function FlushChunk(buffer: string, inside: bool): seq<ContentChunk> {
    if buffer == "" then [] else [ContentChunk(inside, buffer)]
  }

  /** What one iteration adds to the chunks already yielded. */
  lemma FeedLoopUnfolds(chunks: seq<ContentChunk>, buffer: string, inside: bool)
    requires buffer != ""
    ensures var step := Parse(buffer, inside);
            var (all, rest, mode) := FeedLoop(buffer, inside);
            if step.chunk.None? && |step.buffer| == |buffer| then (all, rest, mode) == ([], step.buffer, step.inside)
            else
              var (later, rest', mode') := FeedLoop(step.buffer, step.inside);
              && rest == rest' && mode == mode'
              && chunks + all == (chunks + if step.chunk.Some? then [step.chunk.value] else []) + later
  {
    var step := Parse(buffer, inside);
    if step.chunk.Some? {
      var later := FeedLoop(step.buffer, step.inside).0;
      assert chunks + ([step.chunk.value] + later) == (chunks + [step.chunk.value]) + later;
    } else if |step.buffer| < |buffer| {
      var later := FeedLoop(step.buffer, step.inside).0;
      assert [] + later == later && chunks + [] == chunks;
    }
  }

  // --- the object ------------------------------------------------------------------------

  class ThinkTagParser {
    var buffer: string
    var inThinkTag: bool

    constructor ()
      ensures buffer == "" && !inThinkTag
    {
      buffer, inThinkTag := "", false;
    }

    method ParseOutsideThink() returns (chunk: Option<ContentChunk>)
      requires !inThinkTag
      modifies this
      ensures ParseStep(chunk, buffer, inThinkTag) == ParseOutside(old(buffer))
    {
      var thinkStart := Find(buffer, OPEN_TAG);
      var orphanClose := Find(buffer, CLOSE_TAG);
      if orphanClose.Some? && (thinkStart.None? || orphanClose.value < thinkStart.value) {
        var preOrphan := buffer[..orphanClose.value];
        buffer := buffer[orphanClose.value + |CLOSE_TAG|..];
        return ChunkOf(preOrphan, false);
      }
      if thinkStart.None? {
        var k := HoldFrom(buffer, false);
        var emit := buffer[..k];
        buffer := buffer[k..];
        return ChunkOf(emit, false);
      }
      var preThink := buffer[..thinkStart.value];
      buffer := buffer[thinkStart.value + |OPEN_TAG|..];
      inThinkTag := true;
      return ChunkOf(preThink, false);
    }

    method ParseInsideThink() returns (chunk: Option<ContentChunk>)
      requires inThinkTag
      modifies this
      ensures ParseStep(chunk, buffer, inThinkTag) == ParseInside(old(buffer))
    {
      var thinkEnd := Find(buffer, CLOSE_TAG);
      if thinkEnd.None? {
        var k := HoldFrom(buffer, true);
        var emit := buffer[..k];
        buffer := buffer[k..];
        return ChunkOf(emit, true);
      }
      var thinkingContent := buffer[..thinkEnd.value];
      buffer := buffer[thinkEnd.value + |CLOSE_TAG|..];
      inThinkTag := false;
      return ChunkOf(thinkingContent, true);
    }

    method Feed(content: string) returns (chunks: seq<ContentChunk>)
      modifies this
      ensures (chunks, buffer, inThinkTag) == FeedLoop(old(buffer) + content, old(inThinkTag))
    {
      buffer := buffer + content;
      chunks := [];
      ghost var (all, final, mode) := FeedLoop(buffer, inThinkTag);
      assert [] + all == all;
      while buffer != ""
        invariant chunks + FeedLoop(buffer, inThinkTag).0 == all
        invariant FeedLoop(buffer, inThinkTag).1 == final && FeedLoop(buffer, inThinkTag).2 == mode
        decreases |buffer|
      {
        FeedLoopUnfolds(chunks, buffer, inThinkTag);
        ghost var step := Parse(buffer, inThinkTag);
        var prevLen := |buffer|;
        var chunk;
        if !inThinkTag {
          chunk := ParseOutsideThink();
        } else {
          chunk := ParseInsideThink();
        }
        assert step == ParseStep(chunk, buffer, inThinkTag);
        if chunk.Some? {
          chunks := chunks + [chunk.value];
        } else if |buffer| == prevLen {
          assert chunks + [] == chunks;
          return;
        } else {
          assert chunks + [] == chunks;
        }
      }
      assert chunks + [] == chunks;
    }

    method Flush() returns (chunks: seq<ContentChunk>)
      modifies this
      ensures chunks == FlushChunk(old(buffer), old(inThinkTag))
      ensures buffer == "" && inThinkTag == old(inThinkTag)
    {
      if buffer != "" {
        chunks := [ContentChunk(inThinkTag, buffer)];
        buffer := "";
      } else {
        chunks := [];
      }
    }
  }

  // --- agreement with the reference ---------------------------------------------------------

  lemma BracketOnlyFirst(tag: string, i: nat)
    requires tag == OPEN_TAG || tag == CLOSE_TAG
    requires 0 < i < |tag|
    ensures tag[i] != '<' && tag[0] == '<'
  {
  }

  /** A tag that crosses the end of the buffer begins exactly at the held part. */
  lemma NoTagBeforeHold(buffer: string, inside: bool, t: string)
    requires NoTagBefore(buffer, inside, |buffer|)
    ensures NoTagBefore(buffer + t, inside, HoldFrom(buffer, inside))
  {
    forall i, tag | 0 <= i < HoldFrom(buffer, inside) && (tag == CLOSE_TAG || (tag == OPEN_TAG && !inside))
      ensures !TagAt(buffer + t, tag, i)
    {
      if TagAt(buffer + t, tag, i) {
        NoCrossing(buffer, inside, t, tag, i);
      }
    }
  }

  lemma NoCrossing(buffer: string, inside: bool, t: string, tag: string, i: nat)
    requires NoTagBefore(buffer, inside, |buffer|)
    requires tag == CLOSE_TAG || (tag == OPEN_TAG && !inside)
    requires i < |buffer| && TagAt(buffer + t, tag, i)
    ensures i == HoldFrom(buffer, inside)
  {
    var s := buffer + t;
    assert forall j | 0 <= j < |tag| :: s[i + j] == s[i..i + |tag|][j] == tag[j];
    if i + |tag| <= |buffer| {
      assert buffer[i..i + |tag|] == s[i..i + |tag|];
      assert TagAt(buffer, tag, i);
    } else {
      assert buffer[i..] == tag[..|buffer| - i] by {
        assert forall j | 0 <= j < |buffer| - i :: buffer[i..][j] == s[i + j];
      }
      BracketOnlyFirst(tag, 1);
      assert buffer[i] == '<';
      var last := RFindBracket(buffer);
      assert last.Some? && i <= last.value;
      assert buffer[last.value] == buffer[i..][last.value - i] == tag[last.value - i];
      if i < last.value {
        BracketOnlyFirst(tag, last.value - i);
      }
    }
  }

  /** A tag found in the buffer is still the leftmost one whatever follows. */
  lemma NoTagBeforeFound(buffer: string, inside: bool, t: string, tag: string, k: nat)
    requires tag == OPEN_TAG || tag == CLOSE_TAG
    requires TagAt(buffer, tag, k) && NoTagBefore(buffer, inside, k)
    ensures NoTagBefore(buffer + t, inside, k) && TagAt(buffer + t, tag, k)
  {
    var s := buffer + t;
    assert s[k..k + |tag|] == buffer[k..k + |tag|];
    forall i, other | 0 <= i < k && (other == CLOSE_TAG || (other == OPEN_TAG && !inside))
      ensures !TagAt(s, other, i)
    {
      assert i + |other| <= |buffer|;
      assert s[i..i + |other|] == buffer[i..i + |other|];
      assert !TagAt(buffer, other, i);
    }
  }

  function TypedChunks(chunks: seq<ContentChunk>): seq<Item> {
    if chunks == [] then []
    else TypedChunks(chunks[..|chunks| - 1]) + Typed(chunks[|chunks| - 1].content, chunks[|chunks| - 1].thinking)
  }

  function TypedOption(chunk: Option<ContentChunk>): seq<Item> {
    if chunk.None? then [] else Typed(chunk.value.content, chunk.value.thinking)
  }

  /** Emitting up to a tag and removing it agrees with the reference. */
  lemma TagStep(buffer: string, inside: bool, t: string, tag: string, k: nat)
    requires tag == CLOSE_TAG || (tag == OPEN_TAG && !inside)
    requires TagAt(buffer, tag, k) && NoTagBefore(buffer, inside, k)
    ensures View(buffer + t, inside) ==
            Prepend(TypedOption(ChunkOf(buffer[..k], inside)), View(buffer[k + |tag|..] + t, tag == OPEN_TAG))
  {
    hide View, NoTagBefore;
    var s := buffer + t;
    NoTagBeforeFound(buffer, inside, t, tag, k);
    SkipPlain(s, inside, k);
    assert s[k..][..|tag|] == s[k..k + |tag|];
    SkipTag(s[k..], inside, tag);
    assert s[k..][|tag|..] == buffer[k + |tag|..] + t;
    assert s[..k] == buffer[..k];
  }

  /** Emitting all but the held part agrees with the reference. */
  lemma HoldStep(buffer: string, inside: bool, t: string)
    requires NoTagBefore(buffer, inside, |buffer|)
    ensures var step := EmitAndHold(buffer, inside);
            View(buffer + t, inside) == Prepend(TypedOption(step.chunk), View(step.buffer + t, inside))
  {
    var k := HoldFrom(buffer, inside);
    var s := buffer + t;
    NoTagBeforeHold(buffer, inside, t);
    SkipPlain(s, inside, k);
    assert s[..k] == buffer[..k] && s[k..] == buffer[k..] + t;
  }

  lemma ParseAgrees(buffer: string, inside: bool, t: string)
    ensures var step := Parse(buffer, inside);
            View(buffer + t, inside) == Prepend(TypedOption(step.chunk), View(step.buffer + t, step.inside))
  {
    hide View, Scan;
    var start := Find(buffer, OPEN_TAG);
    var close := Find(buffer, CLOSE_TAG);
    if close.Some? && (inside || start.None? || close.value < start.value) {
      TagStep(buffer, inside, t, CLOSE_TAG, close.value);
    } else if inside || start.None? {
      HoldStep(buffer, inside, t);
    } else {
      TagStep(buffer, inside, t, OPEN_TAG, start.value);
    }
  }

  lemma {:induction false} TypedAppend(a: seq<ContentChunk>, b: seq<ContentChunk>)
    ensures TypedChunks(a + b) == TypedChunks(a) + TypedChunks(b)
  {
    if b == [] {
      assert a + b == a;
    } else {
      var front, last := b[..|b| - 1], b[|b| - 1];
      assert (a + b)[..|a + b| - 1] == a + front;
      TypedAppend(a, front);
      hide Typed;
      assert (a + b)[|a + b| - 1] == last;
      assert TypedChunks(a) + TypedChunks(front) + TypedOption(Some(last))
          == TypedChunks(a) + (TypedChunks(front) + TypedOption(Some(last)));
    }
  }

  lemma TypedOne(chunk: Option<ContentChunk>)
    ensures TypedChunks(if chunk.Some? then [chunk.value] else []) == TypedOption(chunk)
  {
    if chunk.Some? {
      assert [chunk.value][..0] == [];
      assert [] + TypedOption(chunk) == TypedOption(chunk);
    }
  }

  lemma PrependTwice(a: seq<Item>, b: seq<Item>, view: (seq<Item>, bool))
    ensures Prepend(a, Prepend(b, view)) == Prepend(a + b, view)
  {
    assert a + (b + view.0) == (a + b) + view.0;
  }

  lemma {:induction false} FeedAgrees(buffer: string, inside: bool, t: string)
    ensures var (chunks, rest, mode) := FeedLoop(buffer, inside);
            View(buffer + t, inside) == Prepend(TypedChunks(chunks), View(rest + t, mode))
    decreases |buffer|
  {
    if buffer == "" {
      assert [] + View(t, inside).0 == View(t, inside).0 && buffer + t == t;
    } else {
      var step := Parse(buffer, inside);
      ParseAgrees(buffer, inside, t);
      if step.chunk.Some? || |step.buffer| < |buffer| {
        var (chunks, rest, mode) := FeedLoop(step.buffer, step.inside);
        FeedAgrees(step.buffer, step.inside, t);
        var first := if step.chunk.Some? then [step.chunk.value] else [];
        TypedAppend(first, chunks);
        TypedOne(step.chunk);
        PrependTwice(TypedOption(step.chunk), TypedChunks(chunks), View(rest + t, mode));
      }
    }
  }

  // --- whole sessions -------------------------------------------------------------------------

  function Join(fragments: seq<string>): string {
    if fragments == [] then "" else Join(fragments[..|fragments| - 1]) + fragments[|fragments| - 1]
  }

  /** A fresh parser fed the fragments one by one: chunks, buffer, mode. */
  function FeedAll(fragments: seq<string>): (seq<ContentChunk>, string, bool) {
    if fragments == [] then ([], "", false)
    else
      var (chunks, buffer, inside) := FeedAll(fragments[..|fragments| - 1]);
      var (more, rest, mode) := FeedLoop(buffer + fragments[|fragments| - 1], inside);
      (chunks + more, rest, mode)
  }

  /** What is held back between two feeds: nothing, or a tag cut short. */
  predicate Held(buffer: string, inside: bool) {
    buffer == "" || CouldBecome(buffer, CLOSE_TAG) || (!inside && CouldBecome(buffer, OPEN_TAG))
  }

  lemma {:induction false} FeedHolds(buffer: string, inside: bool)
    ensures Held(FeedLoop(buffer, inside).1, FeedLoop(buffer, inside).2)
    decreases |buffer|
  {
    if buffer != "" {
      var step := Parse(buffer, inside);
      if step.chunk.Some? || |step.buffer| < |buffer| {
        FeedHolds(step.buffer, step.inside);
      } else {
        assert HoldFrom(buffer, inside) == 0;
        assert buffer[0..] == buffer;
      }
    }
  }

  lemma SessionStep(text: string, chunks: seq<ContentChunk>, buffer: string, inside: bool, last: string, t: string)
    requires View(text + (last + t), false) == Prepend(TypedChunks(chunks), View(buffer + (last + t), inside))
    ensures var (more, rest, mode) := FeedLoop(buffer + last, inside);
            View((text + last) + t, false) == Prepend(TypedChunks(chunks + more), View(rest + t, mode))
  {
    hide View, FeedLoop, TypedChunks;
    var (more, rest, mode) := FeedLoop(buffer + last, inside);
    assert (text + last) + t == text + (last + t);
    assert buffer + (last + t) == (buffer + last) + t;
    FeedAgrees(buffer + last, inside, t);
    TypedAppend(chunks, more);
    PrependTwice(TypedChunks(chunks), TypedChunks(more), View(rest + t, mode));
  }

  lemma {:induction false} SessionAgrees(fragments: seq<string>, t: string)
    ensures var (chunks, buffer, inside) := FeedAll(fragments);
            View(Join(fragments) + t, false) == Prepend(TypedChunks(chunks), View(buffer + t, inside))
    ensures Held(FeedAll(fragments).1, FeedAll(fragments).2)
  {
    if fragments == [] {
      assert [] + View("" + t, false).0 == View("" + t, false).0;
    } else {
      var front, last := fragments[..|fragments| - 1], fragments[|fragments| - 1];
      var (chunks, buffer, inside) := FeedAll(front);
      SessionAgrees(front, last + t);
      SessionStep(Join(front), chunks, buffer, inside, last, t);
      FeedHolds(buffer + last, inside);
    }
  }

  /** A held buffer contains no complete tag. */
  lemma HeldIsPlain(buffer: string, inside: bool)
    requires Held(buffer, inside)
    ensures View(buffer, inside) == (Typed(buffer, inside), inside)
  {
    assert |buffer| >= 7 ==> buffer[0..7][1] == '/' != OPEN_TAG[1];
    SkipPlain(buffer, inside, |buffer|);
    assert buffer[..|buffer|] == buffer && buffer[|buffer|..] == "";
    assert Typed(buffer, inside) + [] == Typed(buffer, inside);
  }

  /** However the text is cut, feeding it and flushing yields the typed
      characters and the mode of one leftmost scan of the whole text. */
  lemma ParserMatchesReference(fragments: seq<string>)
    ensures var (chunks, buffer, inside) := FeedAll(fragments);
            var all := chunks + FlushChunk(buffer, inside);
            (TypedChunks(all), inside) == View(Join(fragments), false)
    ensures Restore(Scan(Join(fragments), false).0) == Join(fragments)
  {
    var (chunks, buffer, inside) := FeedAll(fragments);
    var flushed := FlushChunk(buffer, inside);
    SessionAgrees(fragments, "");
    assert Join(fragments) + "" == Join(fragments) && buffer + "" == buffer;
    HeldIsPlain(buffer, inside);
    TypedAppend(chunks, flushed);
    assert TypedChunks(flushed) == Typed(buffer, inside) by {
      if buffer != "" {
        assert flushed[..0] == [];
        assert TypedChunks(flushed) == [] + Typed(buffer, inside);
      }
    }
    RestoreScan(Join(fragments), false);
  }

  /** Two ways of cutting the same text are indistinguishable downstream. */
  lemma FragmentationIsInvisible(a: seq<string>, b: seq<string>)
    requires Join(a) == Join(b)
    ensures TypedChunks(FeedAll(a).0 + FlushChunk(FeedAll(a).1, FeedAll(a).2)) ==
            TypedChunks(FeedAll(b).0 + FlushChunk(FeedAll(b).1, FeedAll(b).2))
    ensures FeedAll(a).2 == FeedAll(b).2
  {
    ParserMatchesReference(a);
    ParserMatchesReference(b);
  }
}
