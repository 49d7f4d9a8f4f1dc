/** What the native stream policy announces: every kept block with the block it
    came with, and again, where it was interrupted, as the same block resumed. */
module NativePolicyBlocks {
  import opened Common
  import opened StreamContract
  import opened NativePolicy
  import opened NativePolicyTheorems

  // --- the blocks of one upstream index -------------------------------------------------------

  function OwnedStart(owner: map<int, int>, u: int, e: Event): seq<Block> {
    if e.BlockStart? && e.index in owner && owner[e.index] == u then [e.block] else []
  }

  /** The blocks announced for upstream block `u`, one for each of its segments. */
  function OwnedStarts(r: Run, u: int): seq<Block> {
    Collect(e => OwnedStart(r.owner, u, e), r.out)
  }

  function UpStart(u: int, e: Event): seq<Block> {
    if e.BlockStart? && e.index == u then [e.block] else []
  }

  /** The blocks with which the upstream started `u`. */
  function UpStarts(es: seq<Event>, u: int): seq<Block> {
    Collect(e => UpStart(u, e), es)
  }

  /** `again` takes up block `b` of upstream index `u`: a tool keeps its name, its
      input and its id, if it has one; text and thinking go on empty. */
  predicate Resumes(b: Block, u: int, again: Block) {
    && again.kind == b.kind && again.text == ""
    && (b.kind == ToolUse ==>
          && again.name == b.name && again.input == b.input
          && again.toolId == if b.toolId.Given? && b.toolId.id != "" then b.toolId else Generated(u))
    && (b.kind != ToolUse ==>
          (b.kind == Text || b.kind == Thinking) && again.toolId == NoId && again.name == "" && again.input == "")
  }

  /** The first is the block itself, the others take it up. */
  ghost predicate Announces(blocks: seq<Block>, b: Block, u: int) {
    blocks != [] && blocks[0] == b && forall k | 1 <= k < |blocks| :: Resumes(b, u, blocks[k])
  }

  // --- the invariant --------------------------------------------------------------------------

  ghost predicate Faithful(es: seq<Event>, up: Scan, r: Run, u: int)
    requires up.Live?
  {
    var starts := UpStarts(es, u);
    && (u !in up.seen ==> starts == [])
    && (u in r.policy.segs ==>
          && |starts| == 1 && r.policy.segs[u].start == starts[0]
          && (u in up.open ==> up.open[u] == StorageOf(starts[0]))
          && Announces(OwnedStarts(r, u), starts[0], u))
    && (u !in r.policy.segs ==> OwnedStarts(r, u) == [])
  }

  lemma {:induction false} StartsAreSeen(es: seq<Event>, ae: bool)
    requires ScanAll(es, ae).Live?
    ensures forall e | e in es && e.BlockStart? :: e.index in ScanAll(es, ae).seen
  {
    if es != [] {
      StartsAreSeen(es[..|es| - 1], ae);
      assert es == es[..|es| - 1] + [es[|es| - 1]];
    }
  }

  /** Claiming a fresh index does not reassign starts already sent. */
  lemma ClaimKeepsOwnedStarts(r: Run, e: Event, thinking: bool, u: int, ae: bool)
    requires ScanAll(r.out, ae).Live?
    requires forall d :: d in ScanAll(r.out, ae).seen <==> 0 <= d < r.policy.next
    ensures Collect(x => OwnedStart(Advance(r, e, thinking).owner, u, x), r.out) == OwnedStarts(r, u)
  {
    StartsAreSeen(r.out, ae);
    CollectCongruent(x => OwnedStart(Advance(r, e, thinking).owner, u, x), x => OwnedStart(r.owner, u, x), r.out);
  }

  /** The block one event makes the policy announce for `u`. */
  function Announced(p: Policy, e: Event, thinking: bool, u: int): seq<Block> {
    if e.BlockStart? && e.index == u && !DropBlock(e.block.kind, thinking) then [e.block]
    else if e.BlockDelta? && e.index == u && u !in p.dropped && u in p.segs && !p.segs[u].live then
      [Again(p.segs[u].start, u, e.delta.kind)]
    else []
  }

  /** What is sent for a delta of a closed block that was started as `b`. */
  function Again(b: Block, u: int, kind: DeltaType): Block {
    if kind.InputJsonDelta? then
      if b.kind.ToolUse? then
        Block(ToolUse, "", if b.toolId.Given? && b.toolId.id != "" then b.toolId else Generated(u), b.name, b.input)
      else Block(ToolUse, "", Generated(u), "", "{}")
    else if kind.TextDelta? then Block(Text, "", NoId, "", "")
    else Block(Thinking, "", NoId, "", "")
  }

  lemma StartSends(p: Policy, owner: map<int, int>, e: Event, thinking: bool, u: int)
    requires e.BlockStart? && !e.block.kind.Untyped?
    requires forall d | d in owner :: 0 <= d < p.next
    ensures var (q, sent) := Transform(p, e, thinking);
            Collect(x => OwnedStart(Claimed(owner, p, q, e), u, x), sent) == Announced(p, e, thinking, u)
  {
    var (q, sent) := Transform(p, e, thinking);
    CloseAmongSendsStops(p, e.index, p.order);
    CollectTransform(x => OwnedStart(Claimed(owner, p, q, e), u, x), p, e, thinking);
    hide CloseAmong;
  }

  lemma DeltaSends(p: Policy, owner: map<int, int>, e: Event, thinking: bool, u: int)
    requires e.BlockDelta? && e.index !in p.dropped && e.index in p.segs
    requires !DropDelta(e.delta.kind, thinking) && BlockKindOf(e.delta.kind).Some?
    ensures var (q, sent) := Transform(p, e, thinking);
            Collect(x => OwnedStart(Claimed(owner, p, q, e), u, x), sent) == Announced(p, e, thinking, u)
  {
    var (q, sent) := Transform(p, e, thinking);
    CollectTransform(x => OwnedStart(Claimed(owner, p, q, e), u, x), p, e, thinking);
  }

  /** Deltas the contract accepts belong to a kept or a dropped block. */
  lemma DeltaIsKnown(up: Scan, p: Policy, e: Event, thinking: bool, ae: bool)
    requires up.Live? && Registered(up, p, thinking) && e.BlockDelta? && Step(up, e, ae).Live?
    ensures e.index in p.segs || e.index in p.dropped
    ensures e.index in p.segs ==> !DropDelta(e.delta.kind, thinking) && BlockKindOf(e.delta.kind).Some?
  {
  }

  lemma SendsAnnounced(up: Scan, p: Policy, owner: map<int, int>, down: Scan, e: Event, thinking: bool, u: int,
      ae: bool)
    requires Rel(up, p, owner, down, thinking) && Step(up, e, ae).Live?
    ensures var (q, sent) := Transform(p, e, thinking);
            Collect(x => OwnedStart(Claimed(owner, p, q, e), u, x), sent) == Announced(p, e, thinking, u)
  {
    assert forall d | d in owner :: 0 <= d < p.next;
    if e.BlockStart? {
      StartSends(p, owner, e, thinking, u);
    } else if e.BlockDelta? {
      DeltaIsKnown(up, p, e, thinking, ae);
      if e.index in p.dropped {
        assert Transform(p, e, thinking).1 == [];
      } else {
        DeltaSends(p, owner, e, thinking, u);
      }
    } else {
      var (q, sent) := Transform(p, e, thinking);
      CollectTransform(x => OwnedStart(Claimed(owner, p, q, e), u, x), p, e, thinking);
    }
  }

  /** A delta fits only a block of its own kind. */
  lemma AgainResumes(b: Block, u: int, kind: DeltaType)
    requires Fits(StorageOf(b), kind)
    ensures Resumes(b, u, Again(b, u, kind))
  {
  }

  /** The policy's own tables after one event. */
  lemma TableStep(up: Scan, p: Policy, e: Event, thinking: bool, u: int, ae: bool)
    requires up.Live? && Registered(up, p, thinking) && Step(up, e, ae).Live?
    ensures var q := Transform(p, e, thinking).0;
            if e.BlockStart? && e.index == u && !DropBlock(e.block.kind, thinking)
            then u in q.segs && q.segs[u].start == e.block && u !in p.segs
            else (u in q.segs <==> u in p.segs) && (u in q.segs ==> q.segs[u].start == p.segs[u].start)
  {
    if e.BlockStart? {
      CloseKeepsStarts(p, e.index, p.order, u);
      hide CloseAmong;
    } else if e.BlockDelta? {
      DeltaIsKnown(up, p, e, thinking, ae);
    }
  }

  lemma {:induction false} CloseKeepsStarts(p: Policy, current: int, keys: seq<int>, u: int)
    ensures var q := CloseAmong(p, current, keys).0;
            (u in q.segs <==> u in p.segs) && (u in q.segs ==> q.segs[u].start == p.segs[u].start)
  {
    if keys != [] {
      CloseKeepsStarts(p, current, keys[..|keys| - 1], u);
    }
  }

  lemma FaithfulStep(es: seq<Event>, up: Scan, r: Run, e: Event, thinking: bool, u: int, ae: bool)
    requires Rel(up, r.policy, r.owner, ScanAll(r.out, ae), thinking) && Step(up, e, ae).Live?
    requires Faithful(es, up, r, u)
    ensures Faithful(es + [e], Step(up, e, ae), Advance(r, e, thinking), u)
  {
    var p, s := r.policy, Advance(r, e, thinking);
    assert Registered(up, p, thinking) && forall d :: d in ScanAll(r.out, ae).seen <==> 0 <= d < p.next;
    CollectOne(x => UpStart(u, x), es, e);
    ClaimKeepsOwnedStarts(r, e, thinking, u, ae);
    SendsAnnounced(up, p, r.owner, ScanAll(r.out, ae), e, thinking, u, ae);
    TableStep(up, p, e, thinking, u, ae);
    var (q, sent) := Transform(p, e, thinking);
    CollectAppend(x => OwnedStart(s.owner, u, x), r.out, sent);
    assert OwnedStarts(s, u) == OwnedStarts(r, u) + Announced(p, e, thinking, u);
    assert u in p.segs ==> u in up.seen;
    if e.BlockDelta? && e.index == u && u in p.segs && u in up.open {
      AgainResumes(UpStarts(es, u)[0], u, e.delta.kind);
    }
    hide Rel, Registered, Transform, Claimed, ScanAll, UpStarts, OwnedStarts, StorageOf, Resumes, Again, Fits,
      DropBlock;
    FaithfulGoesOn(es, up, r, e, thinking, u, ae, s);
  }

  lemma FaithfulGoesOn(es: seq<Event>, up: Scan, r: Run, e: Event, thinking: bool, u: int, ae: bool, s: Run)
    requires up.Live? && Step(up, e, ae).Live? && Faithful(es, up, r, u)
    requires UpStarts(es + [e], u) == UpStarts(es, u) + UpStart(u, e)
    requires OwnedStarts(s, u) == OwnedStarts(r, u) + Announced(r.policy, e, thinking, u)
    requires u in r.policy.segs ==> u in up.seen
    requires if e.BlockStart? && e.index == u && !DropBlock(e.block.kind, thinking)
             then u in s.policy.segs && s.policy.segs[u].start == e.block && u !in r.policy.segs
             else (u in s.policy.segs <==> u in r.policy.segs)
                  && (u in s.policy.segs ==> s.policy.segs[u].start == r.policy.segs[u].start)
    requires e.BlockDelta? && e.index == u && u in r.policy.segs && u in up.open ==>
               Resumes(UpStarts(es, u)[0], u, Again(UpStarts(es, u)[0], u, e.delta.kind))
    ensures Faithful(es + [e], Step(up, e, ae), s, u)
  {
    hide UpStarts, OwnedStarts, StorageOf, Resumes, Again, Fits, DropBlock;
  }

  lemma {:induction false} RunIsFaithful(es: seq<Event>, thinking: bool, u: int, ae: bool)
    requires ScanAll(es, ae).Live?
    ensures Faithful(es, ScanAll(es, ae), RunPolicy(es, thinking), u)
  {
    if es != [] {
      var front, e := es[..|es| - 1], es[|es| - 1];
      assert es == front + [e];
      RunIsFaithful(front, thinking, u, ae);
      RunKeepsRel(front, thinking, ae);
      hide Faithful, Rel;
      FaithfulStep(front, ScanAll(front, ae), RunPolicy(front, thinking), e, thinking, u, ae);
    }
  }

  // --- the theorems ---------------------------------------------------------------------------

  lemma {:induction false} Dropped(es: seq<Event>, thinking: bool, u: int, ae: bool)
    requires ScanAll(es, ae).Live?
    ensures u in RunPolicy(es, thinking).policy.segs <==>
              exists e :: e in es && e.BlockStart? && e.index == u && !DropBlock(e.block.kind, thinking)
  {
    if es != [] {
      var front, e := es[..|es| - 1], es[|es| - 1];
      assert es == front + [e];
      Dropped(front, thinking, u, ae);
      RunKeepsRel(front, thinking, ae);
      TableStep(ScanAll(front, ae), RunPolicy(front, thinking).policy, e, thinking, u, ae);
      hide Transform, Rel, ScanAll, Step, DropBlock;
      if k :| k in front && k.BlockStart? && k.index == u && !DropBlock(k.block.kind, thinking) {
        assert k in es;
      }
      assert e in es;
    }
  }

  /** For every stream the contract has not rejected: an upstream block that is
      kept is announced with the very block it came with, and every time it is
      taken up again with the same kind, and for a tool the same name, input and
      id; of all others nothing is announced. */
  lemma BlocksAreAnnounced(es: seq<Event>, thinking: bool, u: int, ae: bool)
    requires ScanAll(es, ae).Live?
    ensures var blocks := OwnedStarts(RunPolicy(es, thinking), u);
            if exists e :: e in es && e.BlockStart? && e.index == u && !Unwanted(e.block, thinking)
            then |UpStarts(es, u)| == 1 && Announces(blocks, UpStarts(es, u)[0], u)
            else blocks == []
  {
    RunIsFaithful(es, thinking, u, ae);
    Dropped(es, thinking, u, ae);
  }

  predicate Presentable(e: Event) {
    && (e.BlockStart? ==> e.block.kind !in {Thinking, RedactedThinking})
    && (e.BlockDelta? ==> e.delta.kind !in {ThinkingDelta, SignatureDelta})
  }

  lemma SendsPresentable(up: Scan, p: Policy, e: Event, ae: bool)
    requires up.Live? && Registered(up, p, false) && Step(up, e, ae).Live?
    ensures forall sent | sent in Transform(p, e, false).1 :: Presentable(sent)
  {
    if e.BlockStart? {
      CloseAmongSendsStops(p, e.index, p.order);
      hide CloseAmong;
    } else if e.BlockDelta? {
      DeltaIsKnown(up, p, e, false, ae);
    }
  }

  /** With thinking disabled no thinking reaches the client. */
  lemma {:induction false} ThinkingIsKeptOut(es: seq<Event>, ae: bool)
    requires ScanAll(es, ae).Live?
    ensures forall e | e in RunPolicy(es, false).out ::
              && (e.BlockStart? ==> e.block.kind !in {Thinking, RedactedThinking})
              && (e.BlockDelta? ==> e.delta.kind !in {ThinkingDelta, SignatureDelta})
  {
    if es != [] {
      var front, e := es[..|es| - 1], es[|es| - 1];
      ThinkingIsKeptOut(front, ae);
      RunKeepsRel(front, false, ae);
      var r := RunPolicy(front, false);
      SendsPresentable(ScanAll(front, ae), r.policy, e, ae);
      hide Transform, Claimed, ScanAll, Rel;
    }
  }

  /** Every start that is sent belongs to some upstream block. */
  lemma StartsHaveOwners(es: seq<Event>, thinking: bool, e: Event, ae: bool)
    requires ScanAll(es, ae).Live? && e in RunPolicy(es, thinking).out && e.BlockStart?
    ensures e.index in RunPolicy(es, thinking).owner
  {
    RunKeepsRel(es, thinking, ae);
    StartsAreSeen(RunPolicy(es, thinking).out, ae);
  }

  /** A delta without a block, which the contract rejects, opens one of its kind
      at the next index, unless it is thinking. */
  lemma OrphanDeltaOpens(p: Policy, u: int, delta: Delta, thinking: bool)
    requires u !in p.segs && u !in p.dropped && (delta.kind.TextDelta? || delta.kind.InputJsonDelta?)
    ensures Transform(p, BlockDelta(u, delta), thinking).1 ==
              [BlockStart(p.next, if delta.kind.TextDelta? then Block(Text, "", NoId, "", "")
                                  else Block(ToolUse, "", Generated(u), "", "{}")),
               BlockDelta(p.next, delta)]
  {
  }

  /** Whatever else comes without a block passes as it is, unless it is thinking
      that is disabled, or a stop while thinking is. */
  lemma StraysPass(p: Policy, u: int, delta: Delta, thinking: bool)
    requires u !in p.segs && u !in p.dropped && u !in p.pending
    ensures Transform(p, BlockStop(u), thinking) == (p, if thinking then [BlockStop(u)] else [])
    ensures delta.kind !in {TextDelta, InputJsonDelta} ==>
              Transform(p, BlockDelta(u, delta), thinking) ==
                (p, if !thinking && delta.kind in {ThinkingDelta, UnknownDelta(true)} then []
                    else [BlockDelta(u, delta)])
  {
  }

  // --- everything else ------------------------------------------------------------------------

  function Other(e: Event): seq<Event> {
    if e.BlockStart? || e.BlockDelta? || e.BlockStop? then [] else [e]
  }

  lemma {:induction false} NoOthers(es: seq<Event>)
    requires forall e | e in es :: Other(e) == []
    ensures Collect(Other, es) == []
  {
    if es != [] {
      NoOthers(es[..|es| - 1]);
    }
  }

  lemma OtherStep(p: Policy, e: Event, thinking: bool)
    ensures Collect(Other, Transform(p, e, thinking).1) == Other(e)
  {
    if e.BlockStart? {
      CloseAmongSendsStops(p, e.index, p.order);
      hide CloseAmong;
    }
    var sent := Transform(p, e, thinking).1;
    if Other(e) == [] {
      NoOthers(sent);
    } else {
      assert sent == [e] && sent[..0] == [];
    }
  }

  /** Events that are not about blocks pass, all of them, unchanged and in order. */
  lemma {:induction false} OthersPass(es: seq<Event>, thinking: bool)
    ensures Collect(Other, RunPolicy(es, thinking).out) == Collect(Other, es)
  {
    if es != [] {
      var front, e := es[..|es| - 1], es[|es| - 1];
      OthersPass(front, thinking);
      var r := RunPolicy(front, thinking);
      OtherStep(r.policy, e, thinking);
      var sent := Transform(r.policy, e, thinking).1;
      hide Transform, Claimed;
      CollectAppend(Other, r.out, sent);
    }
  }
}
