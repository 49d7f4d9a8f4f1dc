/** What the native stream policy keeps over whole streams: contract-valid,
    arbitrarily interleaved upstream blocks come out contract-valid, with
    consecutive fresh indices and the same content. */
module NativePolicyTheorems {
  import opened Common
  import opened StreamContract
  import opened NativePolicy

  /** A run of the policy: its state, everything it sent, and, for every index
      it sent, the upstream block that index is a segment of. */
  datatype Run = Run(policy: Policy, out: seq<Event>, owner: map<int, int>)

  function Claimed(owner: map<int, int>, p: Policy, q: Policy, e: Event): map<int, int> {
    if p.next == q.next then owner
    else match e
      case BlockStart(u, _) => owner[p.next := u]
      case BlockDelta(u, _) => owner[p.next := u]
      case _ => owner
  }

  function Advance(r: Run, e: Event, thinking: bool): Run {
    var (q, es) := Transform(r.policy, e, thinking);
    Run(q, r.out + es, Claimed(r.owner, r.policy, q, e))
  }

  function RunPolicy(es: seq<Event>, thinking: bool): Run {
    if es == [] then Run(FRESH_POLICY, [], map[])
    else Advance(RunPolicy(es[..|es| - 1], thinking), es[|es| - 1], thinking)
  }

  // --- the simulation relation -------------------------------------------------------

  /** How the policy's tables reflect the upstream scan. */
  ghost predicate Registered(up: Scan, p: Policy, thinking: bool)
    requires up.Live?
  {
    && (forall u :: u in up.seen <==> u in p.segs || u in p.dropped)
    && p.segs.Keys !! p.dropped
    && up.open.Keys <= up.seen
    && (forall u | u in p.segs :: u in p.order)
    && (thinking ==> p.dropped == {})
    && (forall u :: u in p.pending <==> u in p.segs && u in up.open && !p.segs[u].live)
    && (forall u | u in p.dropped && u in up.open ::
         up.open[u] == Plain(Thinking) || up.open[u] == Plain(RedactedThinking))
    && (forall u | u in p.segs && u in up.open :: thinking || up.open[u] != Plain(Thinking))
  }

  /** How the downstream scan reflects the policy's segments. */
  ghost predicate Mirrored(up: Scan, p: Policy, owner: map<int, int>, down: Scan)
    requires up.Live? && down.Live?
  {
    && (forall d :: d in down.seen <==> 0 <= d < p.next)
    && (forall d :: d in owner <==> 0 <= d < p.next)
    && (forall u | u in p.segs :: p.segs[u].down < p.next && owner[p.segs[u].down] == u)
    && (forall u | u in p.segs && p.segs[u].live ::
          u in up.open && p.segs[u].down in down.open && down.open[p.segs[u].down] == up.open[u])
    && (forall d | d in down.open ::
          d in owner && owner[d] in p.segs && p.segs[owner[d]].down == d && p.segs[owner[d]].live)
  }

  ghost predicate Rel(up: Scan, p: Policy, owner: map<int, int>, down: Scan, thinking: bool) {
    && up.Live? && down.Live?
    && Registered(up, p, thinking)
    && Mirrored(up, p, owner, down)
  }

  lemma CloseOneKeepsRel(up: Scan, p: Policy, owner: map<int, int>, down: Scan, thinking: bool, k: int, ae: bool)
    requires Rel(up, p, owner, down, thinking)
    requires k in p.segs && p.segs[k].live
    ensures Rel(up, CloseOne(p, k), owner, Step(down, BlockStop(p.segs[k].down), ae), thinking)
  {
    var q := CloseOne(p, k);
    var d := p.segs[k].down;
    var after := Step(down, BlockStop(d), ae);
    assert after.open == down.open - {d};
    forall u | u in q.segs && q.segs[u].live
      ensures q.segs[u].down in after.open
    {
      assert owner[q.segs[u].down] == u && owner[d] == k;
    }
  }

  lemma {:induction false} CloseAmongKeepsRel(up: Scan, p: Policy, owner: map<int, int>, down: Scan, thinking: bool,
                                              current: int, keys: seq<int>, ae: bool)
    requires Rel(up, p, owner, down, thinking)
    ensures var (q, stops) := CloseAmong(p, current, keys);
            && Rel(up, q, owner, ScanFrom(down, stops, ae), thinking)
            && q.next == p.next && q.order == p.order && q.dropped == p.dropped && q.segs.Keys == p.segs.Keys
            && (forall k | k in keys && k != current && k in q.segs :: !q.segs[k].live)
            && (forall k | k in q.segs && q.segs[k].live :: p.segs[k].live)
  {
    hide Registered;
    if keys != [] {
      var k := keys[|keys| - 1];
      CloseAmongKeepsRel(up, p, owner, down, thinking, current, keys[..|keys| - 1], ae);
      var (q, stops) := CloseAmong(p, current, keys[..|keys| - 1]);
      if Closable(q, current, k) {
        CloseOneKeepsRel(up, q, owner, ScanFrom(down, stops, ae), thinking, k, ae);
        ScanOne(down, stops, BlockStop(q.segs[k].down), ae);
      }
    }
  }

  /** Block `u` has just been started upstream, or is open there and the policy
      had closed it. */
  ghost predicate Awaiting(up: Scan, up': Scan, p: Policy, u: int, block: Block)
    requires up.Live?
  {
    || (u !in up.seen && up' == Live(up.open[u := StorageOf(block)], up.seen + {u}))
    || (up' == up && u in up.open && u in p.segs && !p.segs[u].live && StorageOf(block) == up.open[u])
  }

  lemma AllocateRegistered(up: Scan, up': Scan, p: Policy, thinking: bool, u: int, kind: BlockType, start: Block,
      block: Block)
    requires up.Live? && Registered(up, p, thinking) && up'.Live? && Awaiting(up, up', p, u, block)
    requires thinking || StorageOf(block) != Plain(Thinking)
    ensures Registered(up', Allocate(p.(pending := p.pending - {u}), u, kind, start), thinking)
  {
    hide StorageOf;
  }

  lemma AllocateMirrored(up: Scan, up': Scan, p: Policy, owner: map<int, int>, down: Scan,
                         u: int, kind: BlockType, start: Block, block: Block, ae: bool)
    requires up.Live? && down.Live? && Mirrored(up, p, owner, down) && up'.Live? && Awaiting(up, up', p, u, block)
    requires u in p.segs ==> u in up.seen
    requires p.next !in down.open && p.next !in down.seen && AllowedStart(block.kind)
    ensures var after := Step(down, BlockStart(p.next, block), ae);
            && after == Live(down.open[p.next := StorageOf(block)], down.seen + {p.next})
            && Mirrored(up', Allocate(p.(pending := p.pending - {u}), u, kind, start), owner[p.next := u], after)
  {
    hide StorageOf, AllowedStart;
    var q := Allocate(p.(pending := p.pending - {u}), u, kind, start);
    var after := Step(down, BlockStart(p.next, block), ae);
    forall v | v in q.segs && q.segs[v].live
      ensures v in up'.open && q.segs[v].down in after.open && after.open[q.segs[v].down] == up'.open[v]
    {
      if v != u {
        assert p.segs[v].down < p.next;
      }
    }
  }

  lemma AllocateKeepsRel(up: Scan, up': Scan, p: Policy, owner: map<int, int>, down: Scan, thinking: bool,
                         u: int, kind: BlockType, start: Block, block: Block, ae: bool)
    requires Rel(up, p, owner, down, thinking)
    requires up'.Live? && AllowedStart(block.kind) && Awaiting(up, up', p, u, block)
    requires thinking || StorageOf(block) != Plain(Thinking)
    ensures Rel(up', Allocate(p.(pending := p.pending - {u}), u, kind, start), owner[p.next := u],
                Step(down, BlockStart(p.next, block), ae), thinking)
  {
    assert p.next !in down.open && p.next !in down.seen && (u in p.segs ==> u in up.seen);
    hide Registered, Mirrored, Awaiting, StorageOf, AllowedStart;
    AllocateRegistered(up, up', p, thinking, u, kind, start, block);
    AllocateMirrored(up, up', p, owner, down, u, kind, start, block, ae);
  }

  // --- one step ------------------------------------------------------------------------

  lemma StartKeepsRel(up: Scan, r: Run, down: Scan, thinking: bool, u: int, block: Block, ae: bool)
    requires Rel(up, r.policy, r.owner, down, thinking)
    requires Step(up, BlockStart(u, block), ae).Live?
    ensures var e := BlockStart(u, block);
            var (q, es) := Transform(r.policy, e, thinking);
            Rel(Step(up, e, ae), q, Claimed(r.owner, r.policy, q, e), ScanFrom(down, es, ae), thinking)
  {
    var p := r.policy;
    var up' := Step(up, BlockStart(u, block), ae);
    if DropBlock(block.kind, thinking) {
      var q := p.(dropped := p.dropped + {u});
      assert Registered(up', q, thinking);
    } else {
      CloseAmongKeepsRel(up, p, r.owner, down, thinking, u, p.order, ae);
      var (q, stops) := CloseAmong(p, u, p.order);
      var closed := ScanFrom(down, stops, ae);
      AllocateKeepsRel(up, up', q, r.owner, closed, thinking, u, block.kind, block, block, ae);
      assert q.pending - {u} == q.pending;
      ScanOne(down, stops, BlockStart(q.next, block), ae);
    }
  }

  lemma DeltaKeepsRel(up: Scan, r: Run, down: Scan, thinking: bool, u: int, delta: Delta, ae: bool)
    requires Rel(up, r.policy, r.owner, down, thinking)
    requires Step(up, BlockDelta(u, delta), ae).Live?
    ensures var e := BlockDelta(u, delta);
            var (q, es) := Transform(r.policy, e, thinking);
            Rel(Step(up, e, ae), q, Claimed(r.owner, r.policy, q, e), ScanFrom(down, es, ae), thinking)
  {
    var p := r.policy;
    assert u in up.open && u in up.seen;
    if u !in p.dropped {
      assert !DropDelta(delta.kind, thinking);
      if p.segs[u].live {
        ScanOne(down, [], BlockDelta(p.segs[u].down, delta), ae);
        assert [] + [BlockDelta(p.segs[u].down, delta)] == [BlockDelta(p.segs[u].down, delta)];
      } else {
        var kind := BlockKindOf(delta.kind).value;
        var carry := p.segs[u].start;
        var block := SyntheticStart(kind, u, if carry.kind.ToolUse? then Some(carry) else None);
        assert StorageOf(block) == up.open[u];
        AllocateKeepsRel(up, up, p, r.owner, down, thinking, u, kind, carry, block, ae);
        ScanTwo(down, BlockStart(p.next, block), BlockDelta(p.next, delta), ae);
      }
    }
  }

  lemma ScanTwo(scan: Scan, a: Event, b: Event, ae: bool)
    ensures ScanFrom(scan, [a], ae) == Step(scan, a, ae)
    ensures ScanFrom(scan, [a, b], ae) == Step(Step(scan, a, ae), b, ae)
  {
    ScanOne(scan, [], a, ae);
    assert [] + [a] == [a];
    ScanOne(scan, [a], b, ae);
    assert [a] + [b] == [a, b];
  }

  lemma StopKeepsRel(up: Scan, r: Run, down: Scan, thinking: bool, u: int, ae: bool)
    requires Rel(up, r.policy, r.owner, down, thinking)
    requires Step(up, BlockStop(u), ae).Live?
    ensures var e := BlockStop(u);
            var (q, es) := Transform(r.policy, e, thinking);
            Rel(Step(up, e, ae), q, Claimed(r.owner, r.policy, q, e), ScanFrom(down, es, ae), thinking)
  {
    var p := r.policy;
    var up' := Step(up, BlockStop(u), ae);
    assert u in up.seen;
    if u !in p.dropped {
      if u in p.pending {
        var q := p.(pending := p.pending - {u});
        assert Registered(up', q, thinking);
      } else {
        var d := p.segs[u].down;
        CloseOneKeepsRel(up, p, r.owner, down, thinking, u, ae);
        ScanTwo(down, BlockStop(d), BlockStop(d), ae);
        var q := p.(segs := p.segs[u := p.segs[u].(live := false)]);
        assert Registered(up', q, thinking);
      }
    }
  }

  lemma StepKeepsRel(up: Scan, r: Run, down: Scan, thinking: bool, e: Event, ae: bool)
    requires Rel(up, r.policy, r.owner, down, thinking)
    requires Step(up, e, ae).Live?
    ensures var (q, es) := Transform(r.policy, e, thinking);
            Rel(Step(up, e, ae), q, Claimed(r.owner, r.policy, q, e), ScanFrom(down, es, ae), thinking)
  {
    match e {
      case BlockStart(u, block) => StartKeepsRel(up, r, down, thinking, u, block, ae);
      case BlockDelta(u, delta) => DeltaKeepsRel(up, r, down, thinking, u, delta, ae);
      case BlockStop(u) => StopKeepsRel(up, r, down, thinking, u, ae);
      case _ => ScanTwo(down, e, e, ae);
    }
  }

  /** Every accepted upstream prefix leaves the policy and its output in step. */
  lemma {:induction false} RunKeepsRel(es: seq<Event>, thinking: bool, ae: bool)
    requires ScanAll(es, ae).Live?
    ensures var r := RunPolicy(es, thinking);
            Rel(ScanAll(es, ae), r.policy, r.owner, ScanAll(r.out, ae), thinking)
  {
    if es != [] {
      var front, e := es[..|es| - 1], es[|es| - 1];
      RunKeepsRel(front, thinking, ae);
      var r := RunPolicy(front, thinking);
      StepKeepsRel(ScanAll(front, ae), r, ScanAll(r.out, ae), thinking, e, ae);
      ScanAppend(EMPTY_SCAN, r.out, Transform(r.policy, e, thinking).1, ae);
    }
  }

  // --- the contract over whole streams ---------------------------------------------------

  /** A block that the thinking setting keeps from the client. */
  predicate Unwanted(block: Block, thinking: bool) {
    !thinking && block.kind in {Thinking, RedactedThinking, UnknownType(true)}
  }

  predicate KeptStart(e: Event, thinking: bool) {
    e.BlockStart? && !Unwanted(e.block, thinking)
  }

  /** Closing other blocks sends stop events only. */
  lemma {:induction false} CloseAmongSendsStops(p: Policy, current: int, keys: seq<int>)
    ensures forall e | e in CloseAmong(p, current, keys).1 :: e.BlockStop?
    ensures CloseAmong(p, current, keys).0.next == p.next
  {
    if keys != [] {
      CloseAmongSendsStops(p, current, keys[..|keys| - 1]);
    }
  }

  lemma {:induction false} CollectNothing<T>(f: Event -> seq<T>, es: seq<Event>)
    requires forall e | e in es :: f(e) == []
    ensures Collect(f, es) == []
  {
    if es != [] {
      CollectNothing(f, es[..|es| - 1]);
    }
  }

  /** What one transformed event contributes, for anything read off events
      that ignores stops. */
  lemma CollectTransform<T>(f: Event -> seq<T>, p: Policy, e: Event, thinking: bool)
    requires forall u :: f(BlockStop(u)) == []
    ensures e.BlockStart? && !DropBlock(e.block.kind, thinking) ==>
              Collect(f, Transform(p, e, thinking).1) ==
                  f(if e.block.kind.Untyped? then e else BlockStart(p.next, e.block))
    ensures |Transform(p, e, thinking).1| == 1 && !e.BlockStart? ==>
              Collect(f, Transform(p, e, thinking).1) == f(Transform(p, e, thinking).1[0])
    ensures e.BlockDelta? && |Transform(p, e, thinking).1| == 2 ==>
              Collect(f, Transform(p, e, thinking).1) ==
                  f(Transform(p, e, thinking).1[0]) + f(BlockDelta(p.next, e.delta))
  {
    var es := Transform(p, e, thinking).1;
    if e.BlockStart? && e.block.kind.Untyped? {
      CollectPair(f, e, e);
      assert es == [e];
    } else if e.BlockStart? {
      CloseAmongSendsStops(p, e.index, p.order);
      CollectNothing(f, CloseAmong(p, e.index, p.order).1);
      CollectOne(f, CloseAmong(p, e.index, p.order).1, BlockStart(p.next, e.block));
    } else if |es| == 1 {
      CollectPair(f, es[0], es[0]);
      assert es == [es[0]];
    } else if |es| == 2 {
      CollectPair(f, es[0], es[1]);
      assert es == [es[0], es[1]];
    }
  }

  predicate UntypedStart(e: Event) {
    e.BlockStart? && e.block.kind.Untyped?
  }

  lemma StartsOfTransform(p: Policy, e: Event, thinking: bool)
    ensures var (q, sent) := Transform(p, e, thinking);
            if UntypedStart(e) then q == p && Collect(StartOf, sent) == [e.index]
            else Collect(StartOf, sent) == if q.next == p.next then [] else [p.next as int]
    ensures Transform(p, e, thinking).0.next == p.next || Transform(p, e, thinking).0.next == p.next + 1
  {
    CollectTransform(StartOf, p, e, thinking);
    if e.BlockStart? {
      CloseAmongSendsStops(p, e.index, p.order);
    }
  }

  lemma CountOn(out: seq<Event>, sent: seq<Event>, n: nat, m: nat)
    requires StartIndices(out) == CountUp(n)
    requires (m == n && Collect(StartOf, sent) == []) || (m == n + 1 && Collect(StartOf, sent) == [n as int])
    ensures StartIndices(out + sent) == CountUp(m)
  {
    CollectAppend(StartOf, out, sent);
    assert m == n + 1 ==> CountUp(n) + [n as int] == CountUp(m);
  }

  lemma {:induction false} StartsCounted(es: seq<Event>, thinking: bool)
    ensures var r := RunPolicy(es, thinking);
            if exists e :: e in es && UntypedStart(e) then |StartIndices(r.out)| > r.policy.next
            else StartIndices(r.out) == CountUp(r.policy.next)
  {
    if es != [] {
      var front, e := es[..|es| - 1], es[|es| - 1];
      assert es == front + [e];
      StartsCounted(front, thinking);
      var r := RunPolicy(front, thinking);
      var (q, sent) := Transform(r.policy, e, thinking);
      StartsOfTransform(r.policy, e, thinking);
      CollectAppend(StartOf, r.out, sent);
      if StartIndices(r.out) == CountUp(r.policy.next) && !UntypedStart(e) {
        CountOn(r.out, sent, r.policy.next, q.next);
      }
    }
  }

  /** The untyped start at `n` carries the number of starts sent before it, and
      the policy allocates nothing from then on. */
  predicate FallsInPlace(es: seq<Event>, thinking: bool, n: nat)
    requires n < |es| && es[n].BlockStart?
  {
    var before := RunPolicy(es[..n], thinking);
    es[n].index == |StartIndices(before.out)| && RunPolicy(es, thinking).policy.next == before.policy.next
  }

  predicate UntypedInPlace(es: seq<Event>, thinking: bool) {
    forall n | 0 <= n < |es| && UntypedStart(es[n]) :: FallsInPlace(es, thinking, n)
  }

  lemma CountOneMore(starts: seq<int>, i: int)
    ensures starts + [i] == CountUp(|starts| + 1) <==> starts == CountUp(|starts|) && i == |starts|
  {
    var all := starts + [i];
    if all == CountUp(|starts| + 1) {
      assert all[|starts|] == i;
      assert forall k | 0 <= k < |starts| :: starts[k] == all[k];
    }
  }

  lemma {:induction false} NextGrows(es: seq<Event>, thinking: bool, n: nat)
    requires n <= |es|
    ensures RunPolicy(es[..n], thinking).policy.next <= RunPolicy(es, thinking).policy.next
  {
    if n == |es| {
      assert es[..n] == es;
    } else {
      var front := es[..|es| - 1];
      assert front[..n] == es[..n];
      NextGrows(front, thinking, n);
      StartsOfTransform(RunPolicy(front, thinking).policy, es[|es| - 1], thinking);
    }
  }

  /** As long as nothing is allocated the earlier untyped starts stay in place. */
  lemma PlaceStays(front: seq<Event>, e: Event, thinking: bool)
    requires RunPolicy(front + [e], thinking).policy.next == RunPolicy(front, thinking).policy.next
    ensures UntypedInPlace(front + [e], thinking) <==>
              UntypedInPlace(front, thinking) && (UntypedStart(e) ==>
                  e.index == |StartIndices(RunPolicy(front, thinking).out)|)
  {
    var es := front + [e];
    hide RunPolicy, StartIndices;
    assert es[..|front|] == front && es[|front|] == e;
    forall n | 0 <= n < |front|
      ensures es[n] == front[n] && (es[n].BlockStart? ==>
              (FallsInPlace(es, thinking, n) <==> FallsInPlace(front, thinking, n)))
    {
      assert es[..n] == front[..n];
    }
    if UntypedStart(e) {
      assert FallsInPlace(es, thinking, |front|) <==> e.index == |StartIndices(RunPolicy(front, thinking).out)|;
    }
  }

  /** A new segment puts every earlier untyped start out of place. */
  lemma PlaceIsLost(front: seq<Event>, e: Event, thinking: bool)
    requires RunPolicy(front + [e], thinking).policy.next > RunPolicy(front, thinking).policy.next && !UntypedStart(e)
    ensures UntypedInPlace(front + [e], thinking) <==> forall k | k in front :: !UntypedStart(k)
  {
    var es := front + [e];
    hide RunPolicy, StartIndices;
    forall n | 0 <= n < |front| && UntypedStart(front[n])
      ensures UntypedStart(es[n]) && !FallsInPlace(es, thinking, n)
    {
      assert es[..n] == front[..n];
      NextGrows(front, thinking, n);
    }
  }

  lemma RunOneStarts(front: seq<Event>, e: Event, thinking: bool)
    ensures var r, s := RunPolicy(front, thinking), RunPolicy(front + [e], thinking);
            && r.policy.next <= s.policy.next <= r.policy.next + 1
            && (UntypedStart(e) ==> s.policy.next == r.policy.next)
            && StartIndices(s.out) == StartIndices(r.out)
                 + (if UntypedStart(e) then [e.index]
                    else if s.policy.next == r.policy.next then []
                    else [r.policy.next as int])
  {
    var r := RunPolicy(front, thinking);
    assert (front + [e])[..|front|] == front;
    StartsOfTransform(r.policy, e, thinking);
    var sent := Transform(r.policy, e, thinking).1;
    hide Transform, Claimed;
    CollectAppend(StartOf, r.out, sent);
  }

  /** The starts sent are numbered 0, 1, 2, ... for exactly the streams in which
      every untyped start, which passes with the index it came with, happens to
      carry the next number and no segment is allocated after it. */
  lemma {:induction false} StartsNumberedExactlyWhen(es: seq<Event>, thinking: bool)
    ensures var starts := StartIndices(RunPolicy(es, thinking).out);
            starts == CountUp(|starts|) <==> UntypedInPlace(es, thinking)
  {
    if es != [] {
      var front, e := es[..|es| - 1], es[|es| - 1];
      assert es == front + [e];
      StartsNumberedExactlyWhen(front, thinking);
      StartsCounted(front, thinking);
      var r := RunPolicy(front, thinking);
      var starts := StartIndices(r.out);
      RunOneStarts(front, e, thinking);
      hide RunPolicy, StartIndices, UntypedInPlace;
      if UntypedStart(e) {
        PlaceStays(front, e, thinking);
        CountOneMore(starts, e.index);
      } else if RunPolicy(es, thinking).policy.next == r.policy.next {
        PlaceStays(front, e, thinking);
        assert starts + [] == starts;
      } else {
        PlaceIsLost(front, e, thinking);
        CountOneMore(starts, r.policy.next);
      }
    }
  }

  /** In particular when every start has a typed block; then there are as many as
      the policy has allocated, and otherwise more. */
  lemma StartsAreConsecutive(es: seq<Event>, thinking: bool)
    ensures var r := RunPolicy(es, thinking);
            StartIndices(r.out) == CountUp(r.policy.next) <==> forall e | e in es :: !UntypedStart(e)
  {
    StartsCounted(es, thinking);
  }

  /** One start without a block type is enough to break the numbering. */
  lemma UntypedStartBreaksNumbers(thinking: bool)
    ensures var starts := StartIndices(RunPolicy([BlockStart(5, Block(Untyped, "", NoId, "", ""))], thinking).out);
            starts == [5] && starts != CountUp(|starts|)
  {
    var e := BlockStart(5, Block(Untyped, "", NoId, "", ""));
    assert [e][..0] == [];
    assert RunPolicy([e], thinking).out == [] + [e];
    CollectOne(StartOf, [], e);
    assert CountUp(1)[0] == 0;
  }

  lemma OpenIsMirrored(up: Scan, p: Policy, owner: map<int, int>, down: Scan, thinking: bool)
    requires Rel(up, p, owner, down, thinking)
    ensures forall d | d in down.open :: d in owner && var u := owner[d];
                         u in p.segs && p.segs[u].live && u in p.order && u in up.open
  {
    forall d | d in down.open
      ensures d in owner && var u := owner[d]; u in p.segs && p.segs[u].live && u in p.order && u in up.open
    {
      var u := owner[d];
      assert u in p.segs && p.segs[u].live;
    }
  }

  /** Once every upstream block has been stopped, nothing is open downstream. */
  lemma NothingLeftOpen(es: seq<Event>, thinking: bool, ae: bool)
    requires ScanAll(es, ae).Live? && ScanAll(es, ae).open == map[]
    ensures ScanAll(RunPolicy(es, thinking).out, ae).Live?
    ensures ScanAll(RunPolicy(es, thinking).out, ae).open == map[]
  {
    RunKeepsRel(es, thinking, ae);
    var r := RunPolicy(es, thinking);
    var down := ScanAll(r.out, ae);
    OpenIsMirrored(ScanAll(es, ae), r.policy, r.owner, down, thinking);
    assert forall d :: d !in down.open;
  }

  lemma ClosedAfterCloseAmong(up: Scan, p: Policy, owner: map<int, int>, down: Scan, thinking: bool, u: int, ae: bool)
    requires Rel(up, p, owner, down, thinking)
    requires u !in p.segs
    ensures var scan := ScanFrom(down, CloseAmong(p, u, p.order).1, ae);
            scan.Live? && scan.open == map[]
  {
    CloseAmongKeepsRel(up, p, owner, down, thinking, u, p.order, ae);
    var (q, stops) := CloseAmong(p, u, p.order);
    var closed := ScanFrom(down, stops, ae);
    OpenIsMirrored(up, q, owner, closed, thinking);
    assert forall d :: d !in closed.open;
  }

  /** An upstream start closes every other block: only the new one is open. */
  lemma StartRepairsOverlap(es: seq<Event>, u: int, block: Block, thinking: bool, ae: bool)
    requires ScanAll(es + [BlockStart(u, block)], ae).Live?
    requires !DropBlock(block.kind, thinking)
    ensures var before := RunPolicy(es, thinking).policy.next;
            var scan := ScanAll(RunPolicy(es + [BlockStart(u, block)], thinking).out, ae);
            scan.Live? && scan.open == map[before := StorageOf(block)]
  {
    var e := BlockStart(u, block);
    LivePrefix(EMPTY_SCAN, es, [e], ae);
    RunKeepsRel(es, thinking, ae);
    ScanOne(EMPTY_SCAN, es, e, ae);
    assert (es + [e])[..|es + [e]| - 1] == es;
    var r := RunPolicy(es, thinking);
    var down := ScanAll(r.out, ae);
    ClosedAfterCloseAmong(ScanAll(es, ae), r.policy, r.owner, down, thinking, u, ae);
    CloseAmongSendsStops(r.policy, u, r.policy.order);
    var stops := CloseAmong(r.policy, u, r.policy.order).1;
    CloseAmongKeepsRel(ScanAll(es, ae), r.policy, r.owner, down, thinking, u, r.policy.order, ae);
    ScanAppend(EMPTY_SCAN, r.out, stops + [BlockStart(r.policy.next, block)], ae);
    ScanOne(down, stops, BlockStart(r.policy.next, block), ae);
  }

  /** What the contract ensures of the next event. */
  predicate Ordinary(p: Policy, e: Event) {
    && (p.segs != map[] ==> p.next > 0)
    && (e.BlockStart? ==> !e.block.kind.Untyped?)
    && (e.BlockDelta? ==> e.index in p.segs || e.index in p.dropped)
  }

  lemma NextStep(p: Policy, e: Event, thinking: bool)
    requires Ordinary(p, e)
    ensures Transform(p, e, thinking).0.next > 0 <==> p.next > 0 || KeptStart(e, thinking)
  {
    if e.BlockStart? {
      CloseAmongSendsStops(p, e.index, p.order);
    }
  }

  lemma NextIsOrdinary(front: seq<Event>, thinking: bool, e: Event, ae: bool)
    requires ScanAll(front, ae).Live? && Step(ScanAll(front, ae), e, ae).Live?
    ensures Ordinary(RunPolicy(front, thinking).policy, e)
  {
    RunKeepsRel(front, thinking, ae);
    hide RunPolicy, ScanAll;
    var p := RunPolicy(front, thinking).policy;
    if p.segs != map[] {
      var u := Member(p.segs.Keys);
      assert p.segs[u].down < p.next;
    }
  }

  lemma {:induction false} SomethingSentIffKept(es: seq<Event>, thinking: bool, ae: bool)
    requires ScanAll(es, ae).Live?
    ensures RunPolicy(es, thinking).policy.next > 0 <==> exists e :: e in es && KeptStart(e, thinking)
  {
    if es != [] {
      var front, e := es[..|es| - 1], es[|es| - 1];
      assert es == front + [e];
      SomethingSentIffKept(front, thinking, ae);
      var p := RunPolicy(front, thinking).policy;
      NextIsOrdinary(front, thinking, e, ae);
      hide ScanAll, KeptStart, Ordinary;
      NextStep(p, e, thinking);
      hide Transform;
      assert RunPolicy(es, thinking).policy == Transform(p, e, thinking).0;
      if k :| k in front && KeptStart(k, thinking) {
        assert k in es;
      }
      assert e in es;
    }
  }

  lemma PassOne<T>(front: seq<T>, last: T, out: seq<T>, more: seq<T>, e: T)
    requires e in front ==> e in out
    requires last == e ==> more == [e]
    ensures e in front + [last] ==> e in out + more
    ensures last == e ==> out + more != [] && (out + more)[|out + more| - 1] == e
  {
  }

  lemma RunOne(es: seq<Event>, thinking: bool)
    requires es != []
    ensures var r, last := RunPolicy(es[..|es| - 1], thinking), es[|es| - 1];
            RunPolicy(es, thinking).out == r.out + Transform(r.policy, last, thinking).1
  {
    hide Transform, Claimed;
  }

  lemma Passed(p: Policy, e: Event, thinking: bool)
    requires e == MessageStart || e == MessageStop
    ensures Transform(p, e, thinking).1 == [e]
  {
  }

  lemma {:induction false} PassesThrough(es: seq<Event>, thinking: bool, e: Event)
    requires e == MessageStart || e == MessageStop
    ensures e in es ==> e in RunPolicy(es, thinking).out
    ensures es != [] && es[|es| - 1] == e ==>
              RunPolicy(es, thinking).out != [] && RunPolicy(es, thinking).out[|RunPolicy(es, thinking).out| - 1] == e
  {
    if es != [] {
      var front, last := es[..|es| - 1], es[|es| - 1];
      var r := RunPolicy(front, thinking);
      RunOne(es, thinking);
      Passed(r.policy, e, thinking);
      hide RunPolicy, Transform;
      PassesThrough(front, thinking, e);
      PassOne(front, last, r.out, Transform(r.policy, last, thinking).1, e);
      assert es == front + [last];
    }
  }

  /** The policy turns a contract-valid stream into a contract-valid stream,
      except when every block of it is dropped, and exactly then. */
  lemma PolicyKeepsContract(es: seq<Event>, thinking: bool, ae: bool)
    requires Contract(es, ae)
    ensures Contract(RunPolicy(es, thinking).out, ae) <==> exists e :: e in es && KeptStart(e, thinking)
  {
    var r := RunPolicy(es, thinking);
    RunKeepsRel(es, thinking, ae);
    PassesThrough(es, thinking, MessageStart);
    PassesThrough(es, thinking, MessageStop);
    SomethingSentIffKept(es, thinking, ae);
    NothingLeftOpen(es, thinking, ae);
    var down := ScanAll(r.out, ae);
    assert r.policy.next > 0 ==> 0 in down.seen;
    if r.policy.next == 0 {
      assert forall d :: d !in down.seen;
      assert down.seen == {};
    }
    assert down.open == map[];
  }

  /** The exception: a stream whose only block is thinking, with thinking disabled. */
  lemma DroppingAllBreaksContract()
    ensures var es := [MessageStart, BlockStart(0, Block(Thinking, "", NoId, "", "")), BlockStop(0), MessageStop];
            Contract(es, false) && !Contract(RunPolicy(es, false).out, false)
  {
    var block := Block(Thinking, "", NoId, "", "");
    var es := [MessageStart, BlockStart(0, block), BlockStop(0), MessageStop];
    assert es[..3] == [MessageStart, BlockStart(0, block), BlockStop(0)];
    assert es[..3][..2] == [MessageStart, BlockStart(0, block)];
    assert es[..3][..2][..1] == [MessageStart] && [MessageStart][..0] == [];
    assert ScanAll(es[..3][..2][..1], false) == EMPTY_SCAN;
    assert ScanAll(es[..3][..2], false) == Live(map[0 := Plain(Thinking)], {0});
    assert ScanAll(es[..3], false) == Live(map[], {0});
    PolicyKeepsContract(es, false, false);
  }

  /** With thinking enabled nothing is dropped, so the contract is always kept. */
  lemma PolicyKeepsContractWithThinking(es: seq<Event>, ae: bool)
    requires Contract(es, ae)
    ensures Contract(RunPolicy(es, true).out, ae)
  {
    PolicyKeepsContract(es, true, ae);
    SeenHasStart(es, ae);
  }

  lemma {:induction false} SeenHasStart(es: seq<Event>, ae: bool)
    requires ScanAll(es, ae).Live? && ScanAll(es, ae).seen != {}
    ensures exists e :: e in es && KeptStart(e, true)
  {
    var front, e := es[..|es| - 1], es[|es| - 1];
    if e.BlockStart? {
      assert e in es && KeptStart(e, true);
    } else {
      SeenHasStart(front, ae);
      var k :| k in front && KeptStart(k, true);
      assert k in es;
    }
  }
}
