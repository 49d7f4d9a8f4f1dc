/** The native stream policy: renumbers upstream content blocks, repairs
    interleaving and enforces the local thinking setting
    (proxy/core/anthropic/native_sse_block_policy.py). */
module NativePolicy {
  import opened Common
  import opened StreamContract

  /** `_UpstreamBlockState`: the downstream segment an upstream block is in. */
  datatype Segment = Segment(kind: BlockType, down: nat, live: bool, start: Block)

  /** The value of a policy state; `order` is the insertion order of `segs`. */
  datatype Policy = Policy(next: nat, order: seq<int>, segs: map<int, Segment>, dropped: set<int>, pending: set<int>)

  const FRESH_POLICY: Policy := Policy(0, [], map[], {}, {})

  // --- pure helpers ----------------------------------------------------------------

  predicate DropBlock(kind: BlockType, thinking: bool) {
    !thinking && (kind.Thinking? || kind.RedactedThinking? || (kind.UnknownType? && kind.mentionsThinking))
  }

  predicate DropDelta(kind: DeltaType, thinking: bool) {
    !thinking && (kind.ThinkingDelta? || (kind.UnknownDelta? && kind.mentionsThinking))
  }

  function BlockKindOf(kind: DeltaType): Option<BlockType> {
    match kind
    case ThinkingDelta => Some(Thinking)
    case SignatureDelta => Some(Thinking)
    case TextDelta => Some(Text)
    case InputJsonDelta => Some(ToolUse)
    case UnknownDelta(_) => None
  }

  function SyntheticStart(kind: BlockType, upstream: int, stored: Option<Block>): Block {
    match kind
    case ToolUse =>
      if stored.Some? then
        var b := stored.value;
        Block(ToolUse, "", if b.toolId.Given? && b.toolId.id != "" then b.toolId else Generated(upstream), b.name,
            b.input)
      else
        Block(ToolUse, "", Generated(upstream), "", "{}")
    case Thinking => Block(Thinking, "", NoId, "", "")
    case _ => Block(Text, "", NoId, "", "")
  }

  // --- the transition function -------------------------------------------------------

  function CloseOne(p: Policy, upstream: int): Policy
    requires upstream in p.segs
  {
    p.(segs := p.segs[upstream := p.segs[upstream].(live := false)], pending := p.pending + {upstream})
  }

  predicate Closable(p: Policy, current: int, upstream: int) {
    upstream != current && upstream in p.segs && p.segs[upstream].live
  }

  /** Close the open blocks among `keys`, except `current`, in that order. */
  function CloseAmong(p: Policy, current: int, keys: seq<int>): (Policy, seq<Event>) {
    if keys == [] then (p, [])
    else
      var (q, stops) := CloseAmong(p, current, keys[..|keys| - 1]);
      var k := keys[|keys| - 1];
      if Closable(q, current, k) then (CloseOne(q, k), stops + [BlockStop(q.segs[k].down)]) else (q, stops)
  }

  function Allocate(p: Policy, upstream: int, kind: BlockType, start: Block): Policy {
    p.(next := p.next + 1,
       order := if upstream in p.segs then p.order else p.order + [upstream],
       segs := p.segs[upstream := Segment(kind, p.next, true, start)])
  }

  function OnStart(p: Policy, u: int, block: Block, thinking: bool): (Policy, seq<Event>) {
    if DropBlock(block.kind, thinking) then (p.(dropped := p.dropped + {u}), [])
    else if block.kind.Untyped? then (p, [BlockStart(u, block)])
    else
      var (q, stops) := CloseAmong(p, u, p.order);
      (Allocate(q, u, block.kind, block), stops + [BlockStart(q.next, block)])
  }

  function OnDelta(p: Policy, u: int, delta: Delta, thinking: bool): (Policy, seq<Event>) {
    var kind := BlockKindOf(delta.kind);
    if u in p.dropped || DropDelta(delta.kind, thinking) then (p, [])
    else if kind.None? then (p, [BlockDelta(u, delta)])
    else if u in p.segs && p.segs[u].live then (p, [BlockDelta(p.segs[u].down, delta)])
    else if u in p.segs then
      var carry := p.segs[u].start;
      var block := SyntheticStart(kind.value, u, if carry.kind.ToolUse? then Some(carry) else None);
      (Allocate(p.(pending := p.pending - {u}), u, kind.value, carry),
       [BlockStart(p.next, block), BlockDelta(p.next, delta)])
    else if kind.value.Thinking? then (p, [BlockDelta(u, delta)])
    else
      var block := SyntheticStart(kind.value, u, None);
      (Allocate(p, u, kind.value, block), [BlockStart(p.next, block), BlockDelta(p.next, delta)])
  }

  function OnStop(p: Policy, u: int, thinking: bool): (Policy, seq<Event>) {
    if u in p.dropped then (p, [])
    else if u in p.pending then (p.(pending := p.pending - {u}), [])
    else if u in p.segs && p.segs[u].live then
      (p.(segs := p.segs[u := p.segs[u].(live := false)]), [BlockStop(p.segs[u].down)])
    else if u in p.segs || !thinking then (p, [])
    else (p, [BlockStop(u)])
  }

  /** `transform_native_sse_block_event` on values. */
  function Transform(p: Policy, e: Event, thinking: bool): (Policy, seq<Event>) {
    match e
    case BlockStart(u, block) => OnStart(p, u, block, thinking)
    case BlockDelta(u, delta) => OnDelta(p, u, delta, thinking)
    case BlockStop(u) => OnStop(p, u, thinking)
    case _ => (p, [e])
  }

  // --- the object ---------------------------------------------------------------------

  class NativeSseBlockPolicyState {
    var nextIndex: nat
    var order: seq<int>
    var byUpstream: map<int, Segment>
    var droppedIndexes: set<int>
    var pendingSuppressedStops: set<int>

    function Abs(): Policy
      reads this
    {
      Policy(nextIndex, order, byUpstream, droppedIndexes, pendingSuppressedStops)
    }

    constructor ()
      ensures Abs() == FRESH_POLICY
    {
      nextIndex, order, byUpstream, droppedIndexes, pendingSuppressedStops := 0, [], map[], {}, {};
    }

    method SyntheticCloseOtherOpenBlocks(current: int) returns (out: seq<Event>)
      modifies this
      ensures (Abs(), out) == CloseAmong(old(Abs()), current, old(order))
      ensures order == old(order)
    {
      out := [];
      var n := 0;
      while n < |order|
        invariant 0 <= n <= |order| && order == old(order)
        invariant (Abs(), out) == CloseAmong(old(Abs()), current, order[..n])
      {
        var upstream := order[n];
        assert order[..n + 1][..n] == order[..n];
        if upstream != current && upstream in byUpstream && byUpstream[upstream].live {
          out := out + [BlockStop(byUpstream[upstream].down)];
          byUpstream := byUpstream[upstream := byUpstream[upstream].(live := false)];
          pendingSuppressedStops := pendingSuppressedStops + {upstream};
        }
        n := n + 1;
      }
      assert order[..n] == order;
    }

    method AllocateNewSegment(upstream: int, kind: BlockType, start: Block) returns (index: nat)
      modifies this
      ensures Abs() == Allocate(old(Abs()), upstream, kind, start)
      ensures index == old(nextIndex)
    {
      index := nextIndex;
      nextIndex := nextIndex + 1;
      if upstream !in byUpstream {
        order := order + [upstream];
      }
      byUpstream := byUpstream[upstream := Segment(kind, index, true, start)];
    }

    method TransformEvent(e: Event, thinking: bool) returns (out: seq<Event>)
      modifies this
      ensures (Abs(), out) == Transform(old(Abs()), e, thinking)
    {
      match e {
        case BlockStart(u, block) =>
          if DropBlock(block.kind, thinking) {
            droppedIndexes := droppedIndexes + {u};
            return [];
          }
          if block.kind.Untyped? {
            return [e];
          }
          var prefix := SyntheticCloseOtherOpenBlocks(u);
          var index := AllocateNewSegment(u, block.kind, block);
          return prefix + [BlockStart(index, block)];
        case BlockDelta(u, delta) =>
          out := TransformDelta(u, delta, thinking);
        case BlockStop(u) =>
          if u in droppedIndexes {
            return [];
          }
          if u in pendingSuppressedStops {
            pendingSuppressedStops := pendingSuppressedStops - {u};
            return [];
          }
          if u in byUpstream && byUpstream[u].live {
            out := [BlockStop(byUpstream[u].down)];
            byUpstream := byUpstream[u := byUpstream[u].(live := false)];
            return;
          }
          return if u in byUpstream || !thinking then [] else [e];
        case _ =>
          return [e];
      }
    }

    method TransformDelta(u: int, delta: Delta, thinking: bool) returns (out: seq<Event>)
      modifies this
      ensures (Abs(), out) == OnDelta(old(Abs()), u, delta, thinking)
    {
      if u in droppedIndexes || DropDelta(delta.kind, thinking) {
        return [];
      }
      var kind := BlockKindOf(delta.kind);
      if kind.None? {
        return [BlockDelta(u, delta)];
      }
      if u in byUpstream && byUpstream[u].live {
        return [BlockDelta(byUpstream[u].down, delta)];
      }
      if u in byUpstream {
        pendingSuppressedStops := pendingSuppressedStops - {u};
        var carry := byUpstream[u].start;
        var index := AllocateNewSegment(u, kind.value, carry);
        var block := SyntheticStart(kind.value, u, if carry.kind.ToolUse? then Some(carry) else None);
        return [BlockStart(index, block), BlockDelta(index, delta)];
      }
      if kind.value.Thinking? {
        return [BlockDelta(u, delta)];
      }
      var block := SyntheticStart(kind.value, u, None);
      var index := AllocateNewSegment(u, kind.value, block);
      return [BlockStart(index, block), BlockDelta(index, delta)];
    }
  }
}
