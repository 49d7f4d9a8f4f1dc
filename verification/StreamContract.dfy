/** Anthropic stream events and the executable contract every producer of the
    proxy is checked against (proxy/core/anthropic/stream_contracts.py).

    Events are datatypes: JSON encoding is not modelled.  Whatever the contract
    and the producers can observe of a payload is kept. */
module StreamContract {
  import opened Common

  /** `content_block.type`.  An unknown type keeps the only thing the block
      policy looks at: whether the word "thinking" occurs in it.  `Untyped` is a
      block that is no object, or whose type is no string. */
  datatype BlockType =
    | Text
    | Thinking
    | ToolUse
    | RedactedThinking
    | ServerToolUse
    | WebSearchToolResult
    | WebFetchToolResult
    | UnknownType(mentionsThinking: bool)
    | Untyped

  /** `delta.type`, with the same convention for unknown types. */
  datatype DeltaType =
    | TextDelta
    | ThinkingDelta
    | SignatureDelta
    | InputJsonDelta
    | UnknownDelta(mentionsThinking: bool)

  /** A tool id is either copied from a payload or generated from an index. */
  datatype ToolId = NoId | Given(id: string) | Generated(index: int)

  datatype Block = Block(kind: BlockType, text: string, toolId: ToolId, name: string, input: string)

  datatype Delta = Delta(kind: DeltaType, payload: string)

  /** `Malformed` is a content-block event without an integer index, or a delta
      event whose delta is no object; `edge` tells a start or a stop.  The contract
      rejects it, and the block policy passes it on as it is. */
  datatype Event =
    | MessageStart
    | BlockStart(index: int, block: Block)
    | BlockDelta(index: int, delta: Delta)
    | BlockStop(index: int)
    | MessageDelta(stopReason: string)
    | MessageStop
    | ErrorEvent(message: string)
    | Malformed(edge: bool)
    | OtherEvent(name: string)

  // --- the contract --------------------------------------------------------------

  /** What the contract stores for an open block: text that arrived with its
      start event may not receive deltas. */
  datatype Storage = Eager | Plain(kind: BlockType)

  datatype Scan = Broken | Live(open: map<int, Storage>, seen: set<int>)

  const EMPTY_SCAN: Scan := Live(map[], {})

  predicate AllowedStart(kind: BlockType) {
    !kind.UnknownType? && !kind.Untyped?
  }

  function StorageOf(block: Block): Storage {
    if block.kind.Text? && !IsBlank(block.text) then Eager else Plain(block.kind)
  }

  predicate Fits(storage: Storage, delta: DeltaType) {
    match storage
    case Plain(Text) => delta.TextDelta?
    case Plain(Thinking) => delta.ThinkingDelta? || delta.SignatureDelta?
    case Plain(ToolUse) => delta.InputJsonDelta?
    case _ => false
  }

  /** One iteration of the contract's loop; `Broken` is a failed assertion. */
  function Step(scan: Scan, e: Event, allowError: bool): Scan {
    if scan.Broken? then Broken else
    match e
    case ErrorEvent(_) => if allowError then scan else Broken
    case Malformed(_) => Broken
    case BlockStart(i, block) =>
      if AllowedStart(block.kind) && i !in scan.open && i !in scan.seen
      then Live(scan.open[i := StorageOf(block)], scan.seen + {i})
      else Broken
    case BlockDelta(i, delta) =>
      if i in scan.open && Fits(scan.open[i], delta.kind) then scan else Broken
    case BlockStop(i) =>
      if i in scan.open then Live(scan.open - {i}, scan.seen) else Broken
    case _ => scan
  }

  function ScanFrom(scan: Scan, es: seq<Event>, allowError: bool): Scan {
    if es == [] then scan
    else Step(ScanFrom(scan, es[..|es| - 1], allowError), es[|es| - 1], allowError)
  }

  function ScanAll(es: seq<Event>, allowError: bool): Scan {
    ScanFrom(EMPTY_SCAN, es, allowError)
  }

  /** The contract as one predicate. */
  predicate Contract(es: seq<Event>, allowError: bool) {
    && es != []
    && MessageStart in es
    && es[|es| - 1] == MessageStop
    && var scan := ScanAll(es, allowError);
    && scan.Live?
    && scan.open == map[]
    && scan.seen != {}
  }

  lemma {:induction false} ScanAppend(scan: Scan, a: seq<Event>, b: seq<Event>, allowError: bool)
    ensures ScanFrom(scan, a + b, allowError) == ScanFrom(ScanFrom(scan, a, allowError), b, allowError)
  {
    if b == [] {
      assert a + b == a;
    } else {
      var n := |b| - 1;
      assert (a + b)[..|a + b| - 1] == a + b[..n];
      assert (a + b)[|a + b| - 1] == b[n];
      ScanAppend(scan, a, b[..n], allowError);
    }
  }

  lemma ScanOne(scan: Scan, a: seq<Event>, e: Event, allowError: bool)
    ensures ScanFrom(scan, a + [e], allowError) == Step(ScanFrom(scan, a, allowError), e, allowError)
  {
    assert (a + [e])[..|a + [e]| - 1] == a;
  }

  lemma {:induction false} BrokenStays(es: seq<Event>, allowError: bool)
    ensures ScanFrom(Broken, es, allowError) == Broken
  {
    if es != [] {
      BrokenStays(es[..|es| - 1], allowError);
    }
  }

  /** A live stream is live at every prefix. */
  lemma LivePrefix(scan: Scan, a: seq<Event>, b: seq<Event>, allowError: bool)
    requires ScanFrom(scan, a + b, allowError).Live?
    ensures ScanFrom(scan, a, allowError).Live?
  {
    ScanAppend(scan, a, b, allowError);
    if ScanFrom(scan, a, allowError).Broken? {
      BrokenStays(b, allowError);
    }
  }

  lemma {:induction false} OpenIsSeen(es: seq<Event>, allowError: bool)
    requires ScanAll(es, allowError).Live?
    ensures ScanAll(es, allowError).open.Keys <= ScanAll(es, allowError).seen
  {
    if es != [] {
      var before := ScanAll(es[..|es| - 1], allowError);
      assert before.Live?;
      OpenIsSeen(es[..|es| - 1], allowError);
    }
  }

  /** The assertion loop of the contract, returning whether every assertion held. */
  method CheckContract(es: seq<Event>, allowError: bool) returns (ok: bool)
    ensures ok == Contract(es, allowError)
  {
    if es == [] || MessageStart !in es || es[|es| - 1] != MessageStop {
      return false;
    }
    var openBlocks: map<int, Storage> := map[];
    var seenBlocks: set<int> := {};
    var n := 0;
    while n < |es|
      invariant 0 <= n <= |es|
      invariant ScanAll(es[..n], allowError) == Live(openBlocks, seenBlocks)
    {
      var e := es[n];
      assert es[..n + 1] == es[..n] + [e];
      ScanOne(EMPTY_SCAN, es[..n], e, allowError);
      var good := true;
      match e {
        case ErrorEvent(_) => good := allowError;
        case Malformed(_) => good := false;
        case BlockStart(i, block) =>
          good := AllowedStart(block.kind) && i !in openBlocks && i !in seenBlocks;
          if good {
            openBlocks := openBlocks[i := StorageOf(block)];
            seenBlocks := seenBlocks + {i};
          }
        case BlockDelta(i, delta) =>
          good := i in openBlocks && Fits(openBlocks[i], delta.kind);
        case BlockStop(i) =>
          good := i in openBlocks;
          openBlocks := openBlocks - {i};
        case _ =>
      }
      if !good {
        assert es == es[..n + 1] + es[n + 1..];
        ScanAppend(EMPTY_SCAN, es[..n + 1], es[n + 1..], allowError);
        BrokenStays(es[n + 1..], allowError);
        return false;
      }
      n := n + 1;
    }
    assert es[..n] == es;
    ok := openBlocks == map[] && seenBlocks != {};
  }

  // --- what a stream says ----------------------------------------------------------

  /** What `f` reads off each event, in stream order. */
  function Collect<T>(f: Event -> seq<T>, es: seq<Event>): seq<T> {
    if es == [] then [] else Collect(f, es[..|es| - 1]) + f(es[|es| - 1])
  }

  function TextOf(e: Event): string {
    match e
    case BlockStart(_, block) => if block.kind.Text? then block.text else ""
    case BlockDelta(_, delta) => if delta.kind.TextDelta? then delta.payload else ""
    case _ => ""
  }

  function ThinkingOf(e: Event): string {
    if e.BlockDelta? && e.delta.kind.ThinkingDelta? then e.delta.payload else ""
  }

  function StartOf(e: Event): seq<int> {
    if e.BlockStart? then [e.index] else []
  }

  /** `text_content`: eager text of text blocks and text deltas, in order. */
  function TextContent(es: seq<Event>): string {
    Collect(TextOf, es)
  }

  /** `thinking_content`: thinking deltas, in order. */
  function ThinkingContent(es: seq<Event>): string {
    Collect(ThinkingOf, es)
  }

  /** The indices of the start events, in order. */
  function StartIndices(es: seq<Event>): seq<int> {
    Collect(StartOf, es)
  }

  /** 0, 1, 2, ..., n-1 */
  function CountUp(n: nat): (s: seq<int>)
    ensures |s| == n && forall i | 0 <= i < n :: s[i] == i
  {
    seq(n, i => i)
  }

  lemma CollectOne<T>(f: Event -> seq<T>, a: seq<Event>, e: Event)
    ensures Collect(f, a + [e]) == Collect(f, a) + f(e)
  {
    assert (a + [e])[..|a + [e]| - 1] == a;
  }

  lemma {:induction false} CollectAppend<T>(f: Event -> seq<T>, a: seq<Event>, b: seq<Event>)
    ensures Collect(f, a + b) == Collect(f, a) + Collect(f, b)
  {
    if b == [] {
      assert a + b == a;
    } else {
      var front, last := b[..|b| - 1], b[|b| - 1];
      CollectAppend(f, a, front);
      assert (a + b)[..|a + b| - 1] == a + front;
    }
  }

  lemma {:induction false} CollectCongruent<T>(f: Event -> seq<T>, g: Event -> seq<T>, es: seq<Event>)
    requires forall e | e in es :: f(e) == g(e)
    ensures Collect(f, es) == Collect(g, es)
  {
    if es != [] {
      CollectCongruent(f, g, es[..|es| - 1]);
    }
  }

  lemma CollectPair<T>(f: Event -> seq<T>, a: Event, b: Event)
    ensures Collect(f, [a]) == f(a)
    ensures Collect(f, [a, b]) == f(a) + f(b)
  {
    CollectOne(f, [], a);
    assert [] + [a] == [a];
    CollectOne(f, [a], b);
    assert [a] + [b] == [a, b];
  }

  /** The deltas of block `index`, in order. */
  function DeltasOf(es: seq<Event>, index: int): seq<Delta> {
    Collect((e: Event) => if e.BlockDelta? && e.index == index then [e.delta] else [], es)
  }

  lemma {:induction false} UnseenHasNoDeltas(es: seq<Event>, u: int, ae: bool)
    requires ScanAll(es, ae).Live? && u !in ScanAll(es, ae).seen
    ensures DeltasOf(es, u) == []
  {
    if es != [] {
      OpenIsSeen(es[..|es| - 1], ae);
      UnseenHasNoDeltas(es[..|es| - 1], u, ae);
    }
  }

  /** A stream accepted without error events is accepted the same way with them allowed. */
  lemma {:induction false} AllowingErrorsIsWeaker(es: seq<Event>)
    requires ScanAll(es, false).Live?
    ensures ScanAll(es, true) == ScanAll(es, false)
  {
    if es != [] {
      AllowingErrorsIsWeaker(es[..|es| - 1]);
    }
  }
}
