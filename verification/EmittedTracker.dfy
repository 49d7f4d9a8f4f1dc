/** Completing a native stream that broke half way
    (proxy/core/anthropic/emitted_sse_tracker.py). */
module EmittedTracker {
  import opened Common
  import opened StreamContract
  import opened SseBuilding
  import opened NativePolicyTheorems

  // --- framing: text is split at blank lines ---------------------------------------------

  const SEPARATOR: string := "\n\n"

  predicate SeparatorAt(s: string, i: nat) {
    i + 1 < |s| && s[i] == '\n' && s[i + 1] == '\n'
  }

  function FindSeparator(s: string, from: nat): (r: Option<nat>)
    requires from <= |s|
    ensures r.Some? ==> from <= r.value && SeparatorAt(s, r.value)
    ensures forall i | from <= i < |s| && (r.Some? ==> i < r.value) :: !SeparatorAt(s, i)
    decreases |s| - from
  {
    if SeparatorAt(s, from) then Some(from)
    else if from == |s| then None
    else FindSeparator(s, from + 1)
  }

  /** The complete frames of a text and what follows the last separator. */
  function Split(s: string): (seq<string>, string)
    decreases |s|
  {
    var sep := FindSeparator(s, 0);
    if sep.None? then ([], s)
    else
      var (frames, rest) := Split(s[sep.value + 2..]);
      ([s[..sep.value]] + frames, rest)
  }

  lemma SplitUnfolds(s: string, k: nat)
    requires SeparatorAt(s, k) && forall i | 0 <= i < k :: !SeparatorAt(s, i)
    ensures Split(s) == ([s[..k]] + Split(s[k + 2..]).0, Split(s[k + 2..]).1)
  {
    var sep := FindSeparator(s, 0);
    assert sep.Some? && sep.value == k;
  }

  lemma SplitWhole(s: string)
    requires FindSeparator(s, 0).None?
    ensures Split(s) == ([], s)
  {
  }

  /** What is appended does not move the first separator. */
  lemma SeparatorStays(a: string, b: string)
    requires FindSeparator(a, 0).Some?
    ensures var k := FindSeparator(a, 0).value;
            && SeparatorAt(a, k) && SeparatorAt(a + b, k)
            && forall i | 0 <= i < k :: !SeparatorAt(a, i) && !SeparatorAt(a + b, i)
  {
    var k := FindSeparator(a, 0).value;
    assert forall i | 0 <= i <= k :: SeparatorAt(a + b, i) <==> SeparatorAt(a, i);
  }

  lemma SplitBoth(a: string, b: string) returns (k: nat)
    requires FindSeparator(a, 0).Some?
    ensures k + 2 <= |a|
    ensures Split(a) == ([a[..k]] + Split(a[k + 2..]).0, Split(a[k + 2..]).1)
    ensures Split(a + b) == ([a[..k]] + Split(a[k + 2..] + b).0, Split(a[k + 2..] + b).1)
  {
    hide Split;
    k := FindSeparator(a, 0).value;
    SeparatorStays(a, b);
    assert k + 2 <= |a|;
    hide FindSeparator, SeparatorAt;
    SplitUnfolds(a, k);
    SplitUnfolds(a + b, k);
    assert (a + b)[..k] == a[..k] && (a + b)[k + 2..] == a[k + 2..] + b;
  }

  lemma Regroup(a: seq<string>, b: seq<string>, c: seq<string>)
    ensures a + (b + c) == a + b + c
    ensures [] + c == c
  {
  }

  /** Splitting may stop anywhere and go on with what was left over. */
  lemma {:induction false} SplitContinues(a: string, b: string)
    ensures Split(a + b).0 == Split(a).0 + Split(Split(a).1 + b).0
    ensures Split(a + b).1 == Split(Split(a).1 + b).1
    decreases |a|
  {
    hide Split, FindSeparator;
    if FindSeparator(a, 0).None? {
      SplitWhole(a);
      Regroup([], [], Split(a + b).0);
    } else {
      var k := SplitBoth(a, b);
      var rest := a[k + 2..];
      SplitContinues(rest, b);
      Regroup([a[..k]], Split(rest).0, Split(Split(rest).1 + b).0);
    }
  }

  /** A frame as the producers write it: no blank line inside, no line feed at the end. */
  predicate Clean(frame: string) {
    (forall i | 0 <= i < |frame| :: !SeparatorAt(frame, i)) && (frame != "" ==> frame[|frame| - 1] != '\n')
  }

  function Framed(frames: seq<string>): string {
    if frames == [] then "" else Framed(frames[..|frames| - 1]) + frames[|frames| - 1] + SEPARATOR
  }

  lemma EndsAtSeparator(frame: string)
    requires Clean(frame)
    ensures var s := frame + SEPARATOR;
            SeparatorAt(s, |frame|) && forall i | 0 <= i < |frame| :: !SeparatorAt(s, i)
  {
    var s := frame + SEPARATOR;
    assert forall i | 0 <= i < |frame| :: s[i] == frame[i];
    forall i | 0 <= i < |frame|
      ensures !SeparatorAt(s, i)
    {
      assert i + 1 < |frame| ==> !SeparatorAt(frame, i);
    }
  }

  lemma SplitOneFrame(frame: string)
    requires Clean(frame)
    ensures Split(frame + SEPARATOR) == ([frame], "")
  {
    var s := frame + SEPARATOR;
    EndsAtSeparator(frame);
    SplitWhole("");
    hide Clean, SeparatorAt, Split;
    SplitUnfolds(s, |frame|);
    assert s[..|frame|] == frame && s[|frame| + 2..] == "";
    assert [frame] + [] == [frame];
  }

  lemma FramedOne(front: seq<string>, last: string)
    ensures Framed(front + [last]) == Framed(front) + (last + SEPARATOR)
  {
    assert (front + [last])[..|front|] == front;
    assert Framed(front) + last + SEPARATOR == Framed(front) + (last + SEPARATOR);
  }

  lemma {:induction false} SplitFramed(frames: seq<string>)
    requires forall f | f in frames :: Clean(f)
    ensures Split(Framed(frames)) == (frames, "")
  {
    if frames == [] {
      SplitWhole("");
    } else {
      hide Split, Framed, Clean, SEPARATOR;
      var front, last := frames[..|frames| - 1], frames[|frames| - 1];
      assert front + [last] == frames;
      SplitFramed(front);
      SplitContinues(Framed(front), last + SEPARATOR);
      FramedOne(front, last);
      assert "" + (last + SEPARATOR) == last + SEPARATOR;
      SplitOneFrame(last);
    }
  }

  // --- what the tracker remembers ----------------------------------------------------------

  datatype Tracked = Tracked(openStack: seq<int>, maxIndex: int)

  const UNTRACKED: Tracked := Tracked([], -1)

  /** `list.remove`: the first occurrence, or nothing. */
  function RemoveFirst(s: seq<int>, x: int): seq<int> {
    if s == [] then []
    else if s[0] == x then s[1..]
    else [s[0]] + RemoveFirst(s[1..], x)
  }

  function Observe(tr: Tracked, e: Event): Tracked {
    match e
    case BlockStart(i, _) => Tracked(tr.openStack + [i], if i > tr.maxIndex then i else tr.maxIndex)
    case BlockStop(i) =>
      if tr.openStack != [] && tr.openStack[|tr.openStack| - 1] == i
      then tr.(openStack := tr.openStack[..|tr.openStack| - 1])
      else tr.(openStack := RemoveFirst(tr.openStack, i))
    case _ => tr
  }

  function ObserveAll(tr: Tracked, es: seq<Event>): Tracked {
    if es == [] then tr else Observe(ObserveAll(tr, es[..|es| - 1]), es[|es| - 1])
  }

  lemma {:induction false} ObserveAppend(tr: Tracked, a: seq<Event>, b: seq<Event>)
    ensures ObserveAll(tr, a + b) == ObserveAll(ObserveAll(tr, a), b)
  {
    if b == [] {
      assert a + b == a;
    } else {
      assert (a + b)[..|a + b| - 1] == a + b[..|b| - 1];
      ObserveAppend(tr, a, b[..|b| - 1]);
    }
  }

  /** The events of a list of frames; blank frames are skipped. */
  function EventsOf(parse: string -> seq<Event>, frames: seq<string>): seq<Event> {
    if frames == [] then []
    else
      var last := frames[|frames| - 1];
      EventsOf(parse, frames[..|frames| - 1]) + if IsBlank(last) then [] else parse(last)
  }

  lemma {:induction false} EventsAppend(parse: string -> seq<Event>, a: seq<string>, b: seq<string>)
    ensures EventsOf(parse, a + b) == EventsOf(parse, a) + EventsOf(parse, b)
  {
    hide IsBlank;
    if b == [] {
      assert a + b == a;
    } else {
      assert (a + b)[..|a + b| - 1] == a + b[..|b| - 1];
      EventsAppend(parse, a, b[..|b| - 1]);
    }
  }

  // --- events that make the tracker raise ---------------------------------------------------

  predicate IsEdge(e: Event) {
    e.Malformed? && e.edge
  }

  /** The events up to the first start or stop without an index. */
  function Before(es: seq<Event>): seq<Event> {
    if es == [] || IsEdge(es[0]) then [] else [es[0]] + Before(es[1..])
  }

  predicate Raises(es: seq<Event>) {
    exists e :: e in es && IsEdge(e)
  }

  lemma {:induction false} BeforeAppend(a: seq<Event>, b: seq<Event>)
    ensures Before(a + b) == if Raises(a) then Before(a) else a + Before(b)
  {
    if a == [] {
      NothingRaises();
      assert a + b == b && a + Before(b) == Before(b);
    } else {
      RaisesFirst(a);
      hide Raises;
      var first, rest := a[0], a[1..];
      assert a == [first] + rest && (a + b)[0] == first && (a + b)[1..] == rest + b;
      BeforeAppend(rest, b);
      assert [first] + (rest + Before(b)) == a + Before(b);
    }
  }

  lemma NothingRaises()
    ensures !Raises([])
  {
  }

  lemma RaisesFirst(a: seq<Event>)
    requires a != []
    ensures Raises(a) <==> IsEdge(a[0]) || Raises(a[1..])
  {
    assert a == [a[0]] + a[1..];
    if e :| e in a[1..] && IsEdge(e) {
      assert e in a;
    }
  }

  lemma RaisesEither(a: seq<Event>, b: seq<Event>)
    ensures Raises(a + b) <==> Raises(a) || Raises(b)
  {
    if e :| e in a && IsEdge(e) {
      assert e in a + b;
    }
    if e :| e in b && IsEdge(e) {
      assert e in a + b;
    }
  }

  lemma BeforeAll(es: seq<Event>)
    requires !Raises(es)
    ensures Before(es) == es
  {
    BeforeAppend(es, []);
    assert es + [] == es;
  }

  /** A stream that the contract has not rejected never makes the tracker raise. */
  lemma {:induction false} LiveNeverRaises(es: seq<Event>, ae: bool)
    requires ScanAll(es, ae).Live?
    ensures !Raises(es)
  {
    if es != [] {
      LiveNeverRaises(es[..|es| - 1], ae);
      RaisesEither(es[..|es| - 1], [es[|es| - 1]]);
      assert es == es[..|es| - 1] + [es[|es| - 1]];
    }
  }

  // --- the tail ---------------------------------------------------------------------------------

  function StopsFor(stack: seq<int>): seq<Event> {
    if stack == [] then [] else [BlockStop(stack[|stack| - 1])] + StopsFor(stack[..|stack| - 1])
  }

  /** The error block and the end of the message, at the given index. */
  function ErrorTail(index: int, message: string): seq<Event> {
    [BlockStart(index, TextBlock()), BlockDelta(index, Delta(TextDelta, message)), BlockStop(index),
     MessageDelta("end_turn"), MessageStop]
  }

  function Tail(tr: Tracked, message: string): seq<Event> {
    StopsFor(tr.openStack) + ErrorTail(tr.maxIndex + 1, message)
  }

  /** One more frame: its events, and whether any so far raises. */
  lemma FramesOneMore(parse: string -> seq<Event>, all: seq<string>, n: nat)
    requires n < |all|
    ensures EventsOf(parse, all[..n + 1]) == EventsOf(parse, all[..n]) + EventsOf(parse, [all[n]])
    ensures !Raises(EventsOf(parse, all[..n])) ==>
              && (Raises(EventsOf(parse, all[..n + 1])) <==> Raises(EventsOf(parse, [all[n]])))
              && (Raises(EventsOf(parse, [all[n]])) ==>
                    && Raises(EventsOf(parse, all))
                    && Before(EventsOf(parse, all)) == EventsOf(parse, all[..n]) + Before(EventsOf(parse, [all[n]])))
  {
    hide EventsOf, Raises, Before, ObserveAll;
    assert all[..n + 1] == all[..n] + [all[n]] && all == all[..n + 1] + all[n + 1..];
    EventsAppend(parse, all[..n], [all[n]]);
    EventsAppend(parse, all[..n + 1], all[n + 1..]);
    if !Raises(EventsOf(parse, all[..n])) {
      RaisesInTheMiddle(EventsOf(parse, all[..n]), EventsOf(parse, [all[n]]), EventsOf(parse, all[n + 1..]));
    }
  }

  lemma RaisesInTheMiddle(a: seq<Event>, b: seq<Event>, c: seq<Event>)
    requires !Raises(a)
    ensures Raises(a + b) <==> Raises(b)
    ensures Raises(b) ==> Raises(a + b + c) && Before(a + b + c) == a + Before(b)
  {
    hide Raises, Before;
    RaisesEither(a, b);
    RaisesEither(a + b, c);
    BeforeAppend(a, b);
    BeforeAppend(a + b, c);
  }

  /** Event `n` raises, and is then the first that does, or is observed. */
  lemma EventObserved(tr: Tracked, es: seq<Event>, n: nat)
    requires n < |es| && !Raises(es[..n])
    ensures if IsEdge(es[n]) then Raises(es) && Before(es) == es[..n]
            else !Raises(es[..n + 1]) && ObserveAll(tr, es[..n + 1]) == Observe(ObserveAll(tr, es[..n]), es[n])
  {
    assert es[..n + 1][..n] == es[..n] && es[..n + 1] == es[..n] + [es[n]] && es == es[..n] + es[n..];
    RaisesFirst([es[n]]);
    RaisesFirst(es[n..]);
    NothingRaises();
    assert [es[n]][1..] == [];
    hide Raises;
    RaisesEither(es[..n], [es[n]]);
    RaisesEither(es[..n], es[n..]);
    BeforeAppend(es[..n], es[n..]);
    assert es[..n] + [] == es[..n];
  }

  // --- the object -----------------------------------------------------------------------------------

  class EmittedNativeSseTracker {
    const parse: string -> seq<Event>
    var buffer: string
    var openStack: seq<int>
    var maxIndex: int

    function Abs(): Tracked
      reads this
    {
      Tracked(openStack, maxIndex)
    }

    constructor (parse: string -> seq<Event>)
      ensures this.parse == parse && buffer == "" && Abs() == UNTRACKED
    {
      this.parse := parse;
      buffer, openStack, maxIndex := "", [], -1;
    }

    method ObserveEvent(e: Event) returns (raised: bool)
      modifies this
      ensures raised == IsEdge(e)
      ensures Abs() == Observe(old(Abs()), e) && buffer == old(buffer)
    {
      raised := false;
      match e {
        case BlockStart(i, _) =>
          maxIndex := if i > maxIndex then i else maxIndex;
          openStack := openStack + [i];
        case BlockStop(i) =>
          if openStack != [] && openStack[|openStack| - 1] == i {
            openStack := openStack[..|openStack| - 1];
          } else {
            openStack := RemoveFirst(openStack, i);
          }
        case Malformed(edge) => raised := edge;
        case _ =>
      }
    }

    /** Observes the events of a frame until one of them raises. */
    method ObserveFrame(frame: string) returns (raised: bool)
      modifies this
      ensures raised == Raises(EventsOf(parse, [frame]))
      ensures Abs() == ObserveAll(old(Abs()), Before(EventsOf(parse, [frame]))) && buffer == old(buffer)
    {
      assert [frame][..0] == [];
      if IsBlank(frame) {
        assert EventsOf(parse, [frame]) == [] + [];
        return false;
      }
      var es := parse(frame);
      assert EventsOf(parse, [frame]) == [] + es == es;
      assert !Raises([]) && ObserveAll(Abs(), []) == Abs();
      hide EventsOf, IsBlank, Raises, Before, ObserveAll, Observe;
      var n := 0;
      while n < |es|
        invariant 0 <= n <= |es| && buffer == old(buffer)
        invariant !Raises(es[..n]) && Abs() == ObserveAll(old(Abs()), es[..n])
      {
        EventObserved(old(Abs()), es, n);
        raised := ObserveEvent(es[n]);
        if raised {
          return;
        }
        n := n + 1;
      }
      assert es[..n] == es;
      BeforeAll(es);
      raised := false;
    }

    /** Handles the complete frames, or those up to the one that raises. */
    method Feed(chunk: string) returns (raised: bool, ghost handled: nat)
      modifies this
      ensures var (frames, rest) := Split(old(buffer) + chunk);
              && handled <= |frames| && Split(buffer) == (frames[handled..], rest)
              && Abs() == ObserveAll(old(Abs()), Before(EventsOf(parse, frames)))
              && raised == Raises(EventsOf(parse, frames))
              && (if raised then handled > 0 && Raises(EventsOf(parse, [frames[handled - 1]]))
                  else handled == |frames| && buffer == rest)
    {
      buffer := buffer + chunk;
      ghost var all, rest := Split(buffer).0, Split(buffer).1;
      handled := 0;
      assert all[..0] == [] && all[0..] == all;
      assert EventsOf(parse, []) == [] && !Raises([]) && ObserveAll(Abs(), []) == Abs();
      hide EventsOf, Raises, Before, ObserveAll, Split;
      while true
        invariant handled <= |all| && Split(buffer) == (all[handled..], rest)
        invariant !Raises(EventsOf(parse, all[..handled]))
        invariant Abs() == ObserveAll(old(Abs()), EventsOf(parse, all[..handled]))
        decreases |buffer|
      {
        var sep := FindSeparator(buffer, 0);
        if sep.None? {
          SplitWhole(buffer);
          assert handled == |all| && all[..handled] == all;
          BeforeAll(EventsOf(parse, all));
          return false, handled;
        }
        var frame := buffer[..sep.value];
        SplitUnfolds(buffer, sep.value);
        assert frame == all[handled];
        buffer := buffer[sep.value + 2..];
        raised := ObserveFrame(frame);
        FramesOneMore(parse, all, handled);
        ObserveAppend(old(Abs()), EventsOf(parse, all[..handled]), Before(EventsOf(parse, [frame])));
        assert all[handled..][1..] == all[handled + 1..];
        handled := handled + 1;
        if raised {
          return;
        }
        BeforeAll(EventsOf(parse, [frame]));
      }
    }

    method IterCloseUnclosedBlocks() returns (out: seq<Event>)
      modifies this
      ensures out == StopsFor(old(openStack)) && openStack == [] && maxIndex == old(maxIndex)
    {
      out := [];
      while openStack != []
        invariant out + StopsFor(openStack) == StopsFor(old(openStack)) && maxIndex == old(maxIndex)
        decreases |openStack|
      {
        var index := openStack[|openStack| - 1];
        assert out + ([BlockStop(index)] + StopsFor(openStack[..|openStack| - 1]))
            == (out + [BlockStop(index)]) + StopsFor(openStack[..|openStack| - 1]);
        openStack := openStack[..|openStack| - 1];
        out := out + [BlockStop(index)];
      }
    }

    method IterMidstreamErrorTail(message: string) returns (out: seq<Event>)
      requires maxIndex >= -1
      ensures out == ErrorTail(maxIndex + 1, message)
    {
      var sse := new SseBuilder();
      sse.nextIndex := maxIndex + 1;
      sse.DoEmitError(message);
      sse.FormatEvent(MessageDelta("end_turn"));
      sse.FormatEvent(MessageStop);
      out := sse.emitted;
    }

    /** What a provider sends when the upstream breaks: the two calls in turn. */
    method CompleteBroken(message: string) returns (out: seq<Event>)
      requires maxIndex >= -1
      modifies this
      ensures out == Tail(old(Abs()), message) && openStack == []
    {
      var stops := IterCloseUnclosedBlocks();
      var tail := IterMidstreamErrorTail(message);
      out := stops + tail;
    }
  }

  /** The tail, event by event: a stop for each open block, the last first, then the
      message as text of a block of its own, and the end of the message. */
  lemma TailSays(tr: Tracked, message: string)
    requires tr.maxIndex >= -1
    ensures var stack, i := tr.openStack, tr.maxIndex + 1;
            Tail(tr, message) ==
              seq(|stack|, k requires 0 <= k < |stack| => BlockStop(stack[|stack| - 1 - k]))
              + [BlockStart(i, Block(Text, "", NoId, "", "")), BlockDelta(i, Delta(TextDelta, message)), BlockStop(i),
                 MessageDelta("end_turn"), MessageStop]
  {
    StopsAre(tr.openStack);
    hide StopsFor;
  }

  lemma {:induction false} StopsAre(stack: seq<int>)
    ensures StopsFor(stack) == seq(|stack|, k requires 0 <= k < |stack| => BlockStop(stack[|stack| - 1 - k]))
  {
    if stack != [] {
      var front := stack[..|stack| - 1];
      StopsAre(front);
      hide StopsFor;
      var stops := seq(|stack|, k requires 0 <= k < |stack| => BlockStop(stack[|stack| - 1 - k]));
      var rest := seq(|front|, k requires 0 <= k < |front| => BlockStop(front[|front| - 1 - k]));
      assert StopsFor(stack) == [BlockStop(stack[|stack| - 1])] + StopsFor(front) by {
        StopsUnfold(stack);
      }
      assert stops == [BlockStop(stack[|stack| - 1])] + rest;
    }
  }

  lemma StopsUnfold(stack: seq<int>)
    requires stack != []
    ensures StopsFor(stack) == [BlockStop(stack[|stack| - 1])] + StopsFor(stack[..|stack| - 1])
  {
  }

  // --- the tail completes any accepted prefix ----------------------------------------------------------

  /** The stack lists the open blocks and every index used is at most `maxIndex`. */
  ghost predicate Tracks(tr: Tracked, scan: Scan) {
    && scan.Live?
    && Distinct(tr.openStack)
    && (forall i :: i in tr.openStack <==> i in scan.open)
    && tr.maxIndex >= -1
    && (forall i | i in scan.seen :: i <= tr.maxIndex)
    && scan.open.Keys <= scan.seen
  }

  lemma {:induction false} RemoveFirstDistinct(s: seq<int>, x: int)
    requires Distinct(s)
    ensures Distinct(RemoveFirst(s, x))
    ensures forall y :: y in RemoveFirst(s, x) <==> y in s && y != x
  {
    if s != [] {
      assert s == [s[0]] + s[1..];
      RemoveFirstDistinct(s[1..], x);
      if s[0] != x {
        assert s[0] !in s[1..];
      }
    }
  }

  lemma LastOpen(stack: seq<int>)
    requires Distinct(stack) && stack != []
    ensures var n := |stack| - 1;
            Distinct(stack[..n]) && forall y :: y in stack[..n] <==> y in stack && y != stack[n]
  {
    var n := |stack| - 1;
    assert stack == stack[..n] + [stack[n]];
  }

  lemma ObserveKeepsTracks(tr: Tracked, scan: Scan, e: Event, ae: bool)
    requires Tracks(tr, scan) && Step(scan, e, ae).Live?
    ensures Tracks(Observe(tr, e), Step(scan, e, ae))
  {
    match e {
      case BlockStart(i, _) =>
        assert i !in tr.openStack;
      case BlockStop(i) =>
        RemoveFirstDistinct(tr.openStack, i);
        LastOpen(tr.openStack);
      case _ =>
    }
  }

  lemma {:induction false} TracksAll(es: seq<Event>, ae: bool)
    requires ScanAll(es, ae).Live?
    ensures Tracks(ObserveAll(UNTRACKED, es), ScanAll(es, ae))
  {
    if es != [] {
      TracksAll(es[..|es| - 1], ae);
      ObserveKeepsTracks(ObserveAll(UNTRACKED, es[..|es| - 1]), ScanAll(es[..|es| - 1], ae), es[|es| - 1], ae);
    }
  }

  lemma {:induction false} StopsCloseAll(stack: seq<int>, scan: Scan, ae: bool)
    requires scan.Live? && Distinct(stack) && forall i :: i in stack <==> i in scan.open
    ensures ScanFrom(scan, StopsFor(stack), ae) == Live(map[], scan.seen)
  {
    if stack == [] {
      assert forall i :: i !in scan.open;
      assert scan.open == map[];
    } else {
      var front, last := stack[..|stack| - 1], stack[|stack| - 1];
      assert stack == front + [last];
      var after := Step(scan, BlockStop(last), ae);
      StopsCloseAll(front, after, ae);
      ScanTwo(scan, BlockStop(last), BlockStop(last), ae);
      ScanAppend(scan, [BlockStop(last)], StopsFor(front), ae);
    }
  }

  lemma ErrorTailScan(scan: Scan, index: int, message: string, ae: bool)
    requires scan.Live? && scan.open == map[] && index !in scan.seen
    ensures ScanFrom(scan, ErrorTail(index, message), ae) == Live(map[], scan.seen + {index})
  {
    var a, b, c := BlockStart(index, TextBlock()), BlockDelta(index, Delta(TextDelta, message)), BlockStop(index);
    ScanTwo(scan, a, b, ae);
    var mid := Live(map[index := Plain(Text)], scan.seen + {index});
    assert Step(Step(scan, a, ae), b, ae) == mid;
    assert mid.open - {index} == map[];
    ScanTwo(mid, c, MessageDelta("end_turn"), ae);
    ScanAppend(scan, [a, b], [c, MessageDelta("end_turn")], ae);
    assert [a, b] + [c, MessageDelta("end_turn")] == [a, b, c, MessageDelta("end_turn")];
    ScanOne(scan, [a, b, c, MessageDelta("end_turn")], MessageStop, ae);
    assert ErrorTail(index, message) == [a, b, c, MessageDelta("end_turn")] + [MessageStop];
  }

  lemma TailScan(es: seq<Event>, message: string, ae: bool)
    requires ScanAll(es, ae).Live?
    ensures var tr := ObserveAll(UNTRACKED, es);
            && tr.maxIndex + 1 !in ScanAll(es, ae).seen
            && ScanAll(es + Tail(tr, message), ae) == Live(map[], ScanAll(es, ae).seen + {tr.maxIndex + 1})
  {
    var tr := ObserveAll(UNTRACKED, es);
    var scan := ScanAll(es, ae);
    TracksAll(es, ae);
    StopsCloseAll(tr.openStack, scan, ae);
    ErrorTailScan(Live(map[], scan.seen), tr.maxIndex + 1, message, ae);
    ScanAppend(scan, StopsFor(tr.openStack), ErrorTail(tr.maxIndex + 1, message), ae);
    ScanAppend(EMPTY_SCAN, es, Tail(tr, message), ae);
  }

  lemma {:induction false} TailOpensNoMessage(tr: Tracked, message: string)
    ensures MessageStart !in Tail(tr, message)
    ensures Tail(tr, message) != [] && Tail(tr, message)[|Tail(tr, message)| - 1] == MessageStop
    decreases |tr.openStack|
  {
    if tr.openStack != [] {
      var less := tr.(openStack := tr.openStack[..|tr.openStack| - 1]);
      TailOpensNoMessage(less, message);
      assert Tail(tr, message) == [BlockStop(tr.openStack[|tr.openStack| - 1])] + Tail(less, message);
    }
  }

  /** The completed stream satisfies the contract exactly when the contract had
      not yet rejected what was sent and the message had been opened; and the
      error block has an index never used before. */
  lemma TailCompletes(es: seq<Event>, message: string, ae: bool)
    ensures Contract(es + Tail(ObserveAll(UNTRACKED, es), message), ae) <==>
              ScanAll(es, ae).Live? && MessageStart in es
    ensures ScanAll(es, ae).Live? ==> ObserveAll(UNTRACKED, es).maxIndex + 1 !in ScanAll(es, ae).seen
  {
    var tail := Tail(ObserveAll(UNTRACKED, es), message);
    TailOpensNoMessage(ObserveAll(UNTRACKED, es), message);
    if ScanAll(es, ae).Broken? {
      ScanAppend(EMPTY_SCAN, es, tail, ae);
      BrokenStays(tail, ae);
    } else {
      TailScan(es, message, ae);
    }
  }

  /** In particular for every prefix of a contract-valid stream. */
  lemma EveryPrefixCompletes(es: seq<Event>, n: nat, message: string, ae: bool)
    requires Contract(es, ae) && n <= |es| && MessageStart in es[..n]
    ensures Contract(es[..n] + Tail(ObserveAll(UNTRACKED, es[..n]), message), ae)
  {
    assert es == es[..n] + es[n..];
    LivePrefix(EMPTY_SCAN, es[..n], es[n..], ae);
    TailCompletes(es[..n], message, ae);
  }

  // --- fed in chunks --------------------------------------------------------------------------------------

  function FeedChunks(parse: string -> seq<Event>, chunks: seq<string>): (Tracked, string) {
    if chunks == [] then (UNTRACKED, "")
    else
      var (tr, buffer) := FeedChunks(parse, chunks[..|chunks| - 1]);
      var (frames, rest) := Split(buffer + chunks[|chunks| - 1]);
      (ObserveAll(tr, EventsOf(parse, frames)), rest)
  }

  function Joined(chunks: seq<string>): string {
    if chunks == [] then "" else Joined(chunks[..|chunks| - 1]) + chunks[|chunks| - 1]
  }

  /** Chunk boundaries do not matter: the tracker has observed the complete
      frames of the text and holds the rest. */
  lemma {:induction false} ChunksObserveText(parse: string -> seq<Event>, chunks: seq<string>)
    ensures FeedChunks(parse, chunks) ==
            (ObserveAll(UNTRACKED, EventsOf(parse, Split(Joined(chunks)).0)), Split(Joined(chunks)).1)
  {
    if chunks == [] {
      assert Split("") == ([], "");
    } else {
      var front, last := chunks[..|chunks| - 1], chunks[|chunks| - 1];
      ChunksObserveText(parse, front);
      SplitContinues(Joined(front), last);
      var (frames, rest) := Split(Joined(front));
      var (more, _) := Split(rest + last);
      EventsAppend(parse, frames, more);
      ObserveAppend(UNTRACKED, EventsOf(parse, frames), EventsOf(parse, more));
    }
  }

  /** Frames sent in any chunks, broken off after any whole frame, then closed
      by the tracker, which never raises: the client has received a
      contract-valid stream. */
  lemma BrokenStreamCompletes(parse: string -> seq<Event>, frames: seq<string>, chunks: seq<string>, message: string,
      ae: bool)
    requires forall f | f in frames :: Clean(f)
    requires Joined(chunks) == Framed(frames)
    requires var es := EventsOf(parse, frames); ScanAll(es, ae).Live? && MessageStart in es
    ensures FeedChunks(parse, chunks).1 == "" && !Raises(EventsOf(parse, frames))
    ensures Contract(EventsOf(parse, frames) + Tail(FeedChunks(parse, chunks).0, message), ae)
  {
    LiveNeverRaises(EventsOf(parse, frames), ae);
    ChunksObserveText(parse, chunks);
    SplitFramed(frames);
    TailCompletes(EventsOf(parse, frames), message, ae);
  }

  // --- policy and tracker together -----------------------------------------------------------------------------

  /** A contract-valid upstream, cut anywhere after its message_start, run
      through the block policy and completed by the tracker, reaches the client
      as a contract-valid stream: whatever the policy had renumbered, split or
      dropped, no dangling block survives the failure. */
  lemma PolicyThenTailCompletes(es: seq<Event>, n: nat, thinking: bool, message: string, ae: bool)
    requires Contract(es, ae) && n <= |es| && MessageStart in es[..n]
    ensures var sent := RunPolicy(es[..n], thinking).out;
            Contract(sent + Tail(ObserveAll(UNTRACKED, sent), message), ae)
  {
    assert es == es[..n] + es[n..];
    LivePrefix(EMPTY_SCAN, es[..n], es[n..], ae);
    RunKeepsRel(es[..n], thinking, ae);
    PassesThrough(es[..n], thinking, MessageStart);
    TailCompletes(RunPolicy(es[..n], thinking).out, message, ae);
  }
}
