/** The native stream policy moves content between blocks without changing it:
    text, thinking and, block by block, every delta survive in order. */
module NativePolicyContent {
  import opened StreamContract
  import opened NativePolicy
  import opened NativePolicyTheorems

  // --- text and thinking -----------------------------------------------------------

  lemma TextOfTransform(p: Policy, e: Event, thinking: bool)
    requires e.BlockDelta? && e.index in p.dropped ==> !e.delta.kind.TextDelta?
    ensures Collect(TextOf, Transform(p, e, thinking).1) == TextOf(e)
  {
    CollectTransform(TextOf, p, e, thinking);
  }

  lemma ThinkingOfTransform(p: Policy, e: Event, thinking: bool)
    requires thinking ==> p.dropped == {}
    ensures Collect(ThinkingOf, Transform(p, e, thinking).1) == if thinking then ThinkingOf(e) else ""
  {
    CollectTransform(ThinkingOf, p, e, thinking);
  }

  lemma {:induction false} CloseAmongDropsNothing(p: Policy, current: int, keys: seq<int>)
    ensures CloseAmong(p, current, keys).0.dropped == p.dropped
  {
    if keys != [] {
      CloseAmongDropsNothing(p, current, keys[..|keys| - 1]);
    }
  }

  lemma {:induction false} NothingDroppedWithThinking(es: seq<Event>)
    ensures RunPolicy(es, true).policy.dropped == {}
  {
    if es != [] {
      NothingDroppedWithThinking(es[..|es| - 1]);
      var r, e := RunPolicy(es[..|es| - 1], true), es[|es| - 1];
      if e.BlockStart? {
        CloseAmongDropsNothing(r.policy, e.index, r.policy.order);
      }
    }
  }

  /** With thinking enabled, text is unchanged for every stream whatsoever. */
  lemma {:induction false} TextUnchangedWithThinking(es: seq<Event>)
    ensures TextContent(RunPolicy(es, true).out) == TextContent(es)
  {
    if es != [] {
      var front, e := es[..|es| - 1], es[|es| - 1];
      TextUnchangedWithThinking(front);
      NothingDroppedWithThinking(front);
      var r := RunPolicy(front, true);
      TextOfTransform(r.policy, e, true);
      CollectAppend(TextOf, r.out, Transform(r.policy, e, true).1);
    }
  }

  /** Thinking is unchanged when enabled and absent when disabled, for every
      stream whatsoever. */
  lemma {:induction false} ThinkingUnchangedOrAbsent(es: seq<Event>, thinking: bool)
    ensures ThinkingContent(RunPolicy(es, thinking).out) == if thinking then ThinkingContent(es) else ""
  {
    if es != [] {
      var front, e := es[..|es| - 1], es[|es| - 1];
      ThinkingUnchangedOrAbsent(front, thinking);
      if thinking {
        NothingDroppedWithThinking(front);
      }
      var r := RunPolicy(front, thinking);
      ThinkingOfTransform(r.policy, e, thinking);
      CollectAppend(ThinkingOf, r.out, Transform(r.policy, e, thinking).1);
    }
  }

  predicate DroppedStart(e: Event, u: int, thinking: bool) {
    e.BlockStart? && e.index == u && Unwanted(e.block, thinking)
  }

  /** Event `n` is text for a block whose start the policy has dropped. */
  predicate Withheld(es: seq<Event>, thinking: bool, n: nat) {
    && n < |es| && es[n].BlockDelta? && es[n].delta.kind.TextDelta? && es[n].delta.payload != ""
    && exists m :: 0 <= m < n && DroppedStart(es[m], es[n].index, thinking)
  }

  /** An index is dropped exactly from the first dropped start on. */
  lemma {:induction false} DroppedMeans(es: seq<Event>, thinking: bool, u: int)
    ensures u in RunPolicy(es, thinking).policy.dropped <==>
            exists m :: 0 <= m < |es| && DroppedStart(es[m], u, thinking)
  {
    if es != [] {
      var front, e := es[..|es| - 1], es[|es| - 1];
      DroppedMeans(front, thinking, u);
      DroppedStep(RunPolicy(front, thinking).policy, e, thinking);
      assert forall m | 0 <= m < |front| :: front[m] == es[m];
      assert es[|front|] == e;
    }
  }

  lemma WithheldLast(front: seq<Event>, e: Event, thinking: bool)
    ensures Withheld(front + [e], thinking, |front|) <==>
              e.BlockDelta? && e.delta.kind.TextDelta? && e.delta.payload != ""
                  && e.index in RunPolicy(front, thinking).policy.dropped
    ensures forall n: nat | n < |front| :: Withheld(front + [e], thinking, n) <==> Withheld(front, thinking, n)
  {
    var es := front + [e];
    assert forall m | 0 <= m < |front| :: es[m] == front[m];
    if e.BlockDelta? {
      DroppedMeans(front, thinking, e.index);
    }
  }

  /** One event: its text is passed on, or lost in a dropped block. */
  lemma TextStep(p: Policy, e: Event, thinking: bool)
    ensures Collect(TextOf, Transform(p, e, thinking).1) ==
              if e.BlockDelta? && e.delta.kind.TextDelta? && e.index in p.dropped then "" else TextOf(e)
  {
    if e.BlockDelta? && e.delta.kind.TextDelta? && e.index in p.dropped {
      assert Transform(p, e, thinking).1 == [];
    } else {
      TextOfTransform(p, e, thinking);
    }
  }

  lemma WithheldGrows(front: seq<Event>, e: Event, thinking: bool)
    requires forall n: nat | n < |front| :: Withheld(front + [e], thinking, n) <==> Withheld(front, thinking, n)
    ensures (exists n :: Withheld(front + [e], thinking, n)) <==>
              (exists n :: Withheld(front, thinking, n)) || Withheld(front + [e], thinking, |front|)
  {
    hide Withheld;
    if n: nat :| Withheld(front, thinking, n) {
      WithheldInside(front, thinking, n);
      assert Withheld(front + [e], thinking, n);
    }
    if n: nat :| Withheld(front + [e], thinking, n) {
      WithheldInside(front + [e], thinking, n);
      assert n < |front| ==> Withheld(front, thinking, n);
    }
  }

  lemma WithheldInside(es: seq<Event>, thinking: bool, n: nat)
    requires Withheld(es, thinking, n)
    ensures n < |es|
  {
  }

  /** What is lost is never made up for. */
  lemma {:induction false} TextShrinks(es: seq<Event>, thinking: bool)
    ensures var sent := TextContent(RunPolicy(es, thinking).out);
            if exists n :: Withheld(es, thinking, n) then |sent| < |TextContent(es)| else sent == TextContent(es)
  {
    if es != [] {
      var front, e := es[..|es| - 1], es[|es| - 1];
      assert es == front + [e];
      TextShrinks(front, thinking);
      WithheldLast(front, e, thinking);
      WithheldGrows(front, e, thinking);
      hide Withheld;
      var r := RunPolicy(front, thinking);
      TextStep(r.policy, e, thinking);
      var sent := Transform(r.policy, e, thinking).1;
      hide Transform, TextOf, Claimed;
      CollectAppend(TextOf, r.out, sent);
      assert RunPolicy(es, thinking).out == r.out + sent;
    }
  }

  /** Text is unchanged if and only if no text arrives for a block whose start was
      dropped. */
  lemma TextUnchangedExactlyWhen(es: seq<Event>, thinking: bool)
    ensures TextContent(RunPolicy(es, thinking).out) == TextContent(es) <==> forall n: nat :: !Withheld(es, thinking, n)
  {
    TextShrinks(es, thinking);
  }

  /** The contract sends no text to such a block, so for every stream it has not
      rejected text is unchanged, with thinking on or off. */
  lemma TextUnchanged(es: seq<Event>, thinking: bool, ae: bool)
    requires ScanAll(es, ae).Live?
    ensures TextContent(RunPolicy(es, thinking).out) == TextContent(es)
  {
    forall n: nat | n < |es|
      ensures !Withheld(es, thinking, n)
    {
      NothingWithheld(es, thinking, n, ae);
    }
    TextUnchangedExactlyWhen(es, thinking);
  }

  lemma NothingWithheld(es: seq<Event>, thinking: bool, n: nat, ae: bool)
    requires ScanAll(es, ae).Live? && n < |es|
    ensures !Withheld(es, thinking, n)
  {
    var front, e := es[..n], es[n];
    assert es == front + [e] + es[n + 1..];
    LivePrefix(EMPTY_SCAN, front + [e], es[n + 1..], ae);
    LiveFront(front, e, ae);
    RunKeepsRel(front, thinking, ae);
    NotDropped(ScanAll(front, ae), RunPolicy(front, thinking).policy, thinking, e, ae);
    hide RunPolicy, ScanAll, Rel;
    WithheldLast(front, e, thinking);
    assert forall m | 0 <= m < n :: es[m] == (front + [e])[m];
    assert es[n] == (front + [e])[n];
    assert Withheld(es, thinking, n) <==> Withheld(front + [e], thinking, n);
  }

  /** The contract lets no text into a dropped block. */
  lemma NotDropped(up: Scan, p: Policy, thinking: bool, e: Event, ae: bool)
    requires up.Live? && Registered(up, p, thinking) && Step(up, e, ae).Live?
    ensures e.BlockDelta? && e.delta.kind.TextDelta? ==> e.index !in p.dropped
  {
  }

  /** Text sent to a dropped block is lost. */
  lemma TextLostInDroppedBlock()
    ensures var es := [BlockStart(0, Block(Thinking, "", NoId, "", "")), BlockDelta(0, Delta(TextDelta, "x"))];
            TextContent(RunPolicy(es, false).out) == "" && TextContent(es) == "x"
  {
    var a, b := BlockStart(0, Block(Thinking, "", NoId, "", "")), BlockDelta(0, Delta(TextDelta, "x"));
    var es := [a, b];
    assert es[..1] == [a] && es[..1][..0] == [];
    assert RunPolicy(es[..0], false) == Run(FRESH_POLICY, [], map[]);
    assert RunPolicy(es[..1], false) == Run(FRESH_POLICY.(dropped := {0}), [], map[]);
    assert RunPolicy(es, false).out == [];
    CollectPair(TextOf, a, b);
  }

  // --- block by block ----------------------------------------------------------------

  function OwnedBy(owner: map<int, int>, u: int, e: Event): seq<Delta> {
    if e.BlockDelta? && e.index in owner && owner[e.index] == u then [e.delta] else []
  }

  /** The deltas sent in any segment of upstream block `u`, in order. */
  function OwnedDeltas(r: Run, u: int): seq<Delta> {
    Collect(e => OwnedBy(r.owner, u, e), r.out)
  }

  lemma {:induction false} DeltasAreSeen(es: seq<Event>, ae: bool)
    requires ScanAll(es, ae).Live?
    ensures forall e | e in es && e.BlockDelta? :: e.index in ScanAll(es, ae).seen
  {
    if es != [] {
      DeltasAreSeen(es[..|es| - 1], ae);
      OpenIsSeen(es[..|es| - 1], ae);
      assert es == es[..|es| - 1] + [es[|es| - 1]];
    }
  }

  /** Claiming a fresh index does not reassign deltas already sent. */
  lemma ClaimKeepsOwnedDeltas(r: Run, e: Event, thinking: bool, u: int, ae: bool)
    requires ScanAll(r.out, ae).Live?
    requires forall d :: d in ScanAll(r.out, ae).seen <==> 0 <= d < r.policy.next
    ensures Collect(x => OwnedBy(Advance(r, e, thinking).owner, u, x), r.out) == OwnedDeltas(r, u)
  {
    DeltasAreSeen(r.out, ae);
    CollectCongruent(x => OwnedBy(Advance(r, e, thinking).owner, u, x), x => OwnedBy(r.owner, u, x), r.out);
  }

  function Arriving(p: Policy, e: Event, u: int): seq<Delta> {
    if e.BlockDelta? && e.index == u && u !in p.dropped then [e.delta] else []
  }

  lemma OwnedByTransform(up: Scan, p: Policy, owner: map<int, int>, down: Scan, e: Event, thinking: bool, u: int,
      ae: bool)
    requires Rel(up, p, owner, down, thinking)
    requires Step(up, e, ae).Live?
    ensures var (q, sent) := Transform(p, e, thinking);
            Collect(x => OwnedBy(Claimed(owner, p, q, e), u, x), sent) == Arriving(p, e, u)
  {
    var (q, sent) := Transform(p, e, thinking);
    CollectTransform(x => OwnedBy(Claimed(owner, p, q, e), u, x), p, e, thinking);
    assert Registered(up, p, thinking) && Mirrored(up, p, owner, down);
    if e.BlockDelta? && e.index !in p.dropped {
      assert e.index in p.segs;
      assert !DropDelta(e.delta.kind, thinking);
    }
  }

  lemma OwnedDeltasStep(up: Scan, r: Run, e: Event, thinking: bool, u: int, ae: bool)
    requires Rel(up, r.policy, r.owner, ScanAll(r.out, ae), thinking)
    requires Step(up, e, ae).Live?
    ensures OwnedDeltas(Advance(r, e, thinking), u) == OwnedDeltas(r, u) + Arriving(r.policy, e, u)
  {
    var (q, sent) := Transform(r.policy, e, thinking);
    ClaimKeepsOwnedDeltas(r, e, thinking, u, ae);
    OwnedByTransform(up, r.policy, r.owner, ScanAll(r.out, ae), e, thinking, u, ae);
    CollectAppend(x => OwnedBy(Claimed(r.owner, r.policy, q, e), u, x), r.out, sent);
  }

  /** Only the start of a dropped block adds to the dropped indices. */
  lemma DroppedStep(p: Policy, e: Event, thinking: bool)
    ensures Transform(p, e, thinking).0.dropped ==
            if e.BlockStart? && DropBlock(e.block.kind, thinking) then p.dropped + {e.index} else p.dropped
  {
    if e.BlockStart? {
      CloseAmongDropsNothing(p, e.index, p.order);
    }
  }

  /** Every upstream block that is not dropped keeps its deltas, in order, over
      however many segments it was split into; a dropped block sends none. */
  lemma {:induction false} BlockDeltasUnchanged(es: seq<Event>, thinking: bool, u: int, ae: bool)
    requires ScanAll(es, ae).Live?
    ensures var r := RunPolicy(es, thinking);
            OwnedDeltas(r, u) == if u in r.policy.dropped then [] else DeltasOf(es, u)
  {
    if es != [] {
      var front, e := es[..|es| - 1], es[|es| - 1];
      BlockDeltasUnchanged(front, thinking, u, ae);
      RunKeepsRel(front, thinking, ae);
      var r := RunPolicy(front, thinking);
      OwnedDeltasStep(ScanAll(front, ae), r, e, thinking, u, ae);
      DroppedStep(r.policy, e, thinking);
      if e.BlockStart? && e.index == u {
        UnseenHasNoDeltas(front, u, ae);
      }
    }
  }

  // --- streams that need no repair -------------------------------------------------------

  /** Blocks one at a time, already numbered 0, 1, 2, ... */
  ghost predicate Sequential(es: seq<Event>, ae: bool) {
    forall n | 0 <= n < |es| && es[n].BlockStart? ::
      && ScanAll(es[..n], ae).Live?
      && ScanAll(es[..n], ae).open == map[]
      && es[n].index == |StartIndices(es[..n])|
  }

  ghost predicate Untouched(up: Scan, r: Run, es: seq<Event>) {
    && up.Live?
    && r.out == es
    && r.policy.next == |StartIndices(es)|
    && (forall u | u in r.policy.segs :: r.policy.segs[u].down == u)
    && (forall u | u in up.open :: u in r.policy.segs && r.policy.segs[u].live)
  }

  lemma {:induction false} NothingToClose(p: Policy, u: int, keys: seq<int>)
    requires forall k | k in p.segs :: !p.segs[k].live
    ensures CloseAmong(p, u, keys) == (p, [])
  {
    if keys != [] {
      NothingToClose(p, u, keys[..|keys| - 1]);
    }
  }

  lemma UntouchedStep(up: Scan, r: Run, es: seq<Event>, e: Event, ae: bool)
    requires Untouched(up, r, es)
    requires Rel(up, r.policy, r.owner, ScanAll(r.out, ae), true)
    requires Step(up, e, ae).Live?
    requires e.BlockStart? ==> up.open == map[] && e.index == r.policy.next
    ensures Untouched(Step(up, e, ae), Advance(r, e, true), es + [e])
  {
    var p := r.policy;
    assert Registered(up, p, true) && Mirrored(up, p, r.owner, ScanAll(r.out, ae));
    CollectOne(StartOf, es, e);
    match e {
      case BlockStart(u, block) =>
        NothingToClose(p, u, p.order);
        assert Transform(p, e, true).1 == [] + [e];
      case BlockDelta(u, _) => assert u in p.segs;
      case BlockStop(u) => assert u in p.segs && u !in p.pending;
      case _ =>
    }
  }

  lemma SequentialFront(front: seq<Event>, e: Event, ae: bool)
    requires Sequential(front + [e], ae)
    ensures Sequential(front, ae)
    ensures e.BlockStart? ==>
              ScanAll(front, ae).Live? && ScanAll(front, ae).open == map[] && e.index == |StartIndices(front)|
  {
    var es := front + [e];
    assert es[..|front|] == front && es[|front|] == e;
    assert forall n | 0 <= n < |front| :: front[..n] == es[..n] && front[n] == es[n];
  }

  lemma LiveFront(front: seq<Event>, e: Event, ae: bool)
    requires ScanAll(front + [e], ae).Live?
    ensures ScanAll(front, ae).Live? && ScanAll(front + [e], ae) == Step(ScanAll(front, ae), e, ae)
    ensures RunPolicy(front + [e], true) == Advance(RunPolicy(front, true), e, true)
  {
    assert (front + [e])[..|front|] == front;
  }

  lemma NextIsStarts(up: Scan, r: Run, es: seq<Event>)
    requires Untouched(up, r, es)
    ensures r.policy.next == |StartIndices(es)| && up.Live?
  {
  }

  lemma {:induction false} UntouchedRun(es: seq<Event>, ae: bool)
    requires ScanAll(es, ae).Live? && Sequential(es, ae)
    ensures Untouched(ScanAll(es, ae), RunPolicy(es, true), es)
  {
    if es != [] {
      var front, e := es[..|es| - 1], es[|es| - 1];
      assert es == front + [e];
      LiveFront(front, e, ae);
      SequentialFront(front, e, ae);
      hide Untouched, Rel, Advance, Sequential, RunPolicy, ScanAll, Step, StartIndices;
      UntouchedRun(front, ae);
      RunKeepsRel(front, true, ae);
      NextIsStarts(ScanAll(front, ae), RunPolicy(front, true), front);
      UntouchedStep(ScanAll(front, ae), RunPolicy(front, true), front, e, ae);
    }
  }

  /** A sequential stream numbered 0, 1, 2, ... comes out unchanged. */
  lemma SequentialUnchanged(es: seq<Event>, ae: bool)
    requires ScanAll(es, ae).Live? && Sequential(es, ae)
    ensures RunPolicy(es, true).out == es
  {
    UntouchedRun(es, ae);
  }
}
