/** The contract without its loop: what it says of the events of a stream and of
    their places. */
module ContractMeaning {
  import opened Common
  import opened StreamContract

  /** The start of block `i` at place `m` has not been followed by its stop. */
  ghost predicate OpenAt(es: seq<Event>, i: int, m: int) {
    0 <= m < |es| && es[m].BlockStart? && es[m].index == i && forall k | m < k < |es| :: es[k] != BlockStop(i)
  }

  ghost predicate StartedAt(es: seq<Event>, i: int, m: int) {
    0 <= m < |es| && es[m].BlockStart? && es[m].index == i
  }

  /** The deltas that a block may receive; a text that came with its start is whole. */
  predicate Suits(block: Block, kind: DeltaType) {
    match block.kind
    case Text => kind == TextDelta && IsBlank(block.text)
    case Thinking => kind == ThinkingDelta || kind == SignatureDelta
    case ToolUse => kind == InputJsonDelta
    case _ => false
  }

  /** The last event of a stream has its place. */
  ghost predicate Fits(front: seq<Event>, e: Event, allowError: bool) {
    match e
    case ErrorEvent(_) => allowError
    case Malformed(_) => false
    case BlockStart(i, block) =>
      && block.kind in {Text, Thinking, ToolUse, RedactedThinking, ServerToolUse, WebSearchToolResult,
           WebFetchToolResult}
      && !exists m :: StartedAt(front, i, m)
    case BlockDelta(i, delta) => exists m | OpenAt(front, i, m) :: Suits(front[m].block, delta.kind)
    case BlockStop(i) => exists m :: OpenAt(front, i, m)
    case _ => true
  }

  ghost predicate AllFit(es: seq<Event>, allowError: bool) {
    forall n | 0 <= n < |es| :: Fits(es[..n], es[n], allowError)
  }

  /** A stream in order: it has a message_start and ends with message_stop; every
      event has its place; every block that is started is stopped, and there is one. */
  ghost predicate InOrder(es: seq<Event>, allowError: bool) {
    && MessageStart in es && es[|es| - 1] == MessageStop
    && AllFit(es, allowError)
    && (forall i, m :: !OpenAt(es, i, m))
    && (exists i, m :: StartedAt(es, i, m))
  }

  // --- the loop keeps exactly what is open --------------------------------------------------------

  ghost predicate Reflects(es: seq<Event>, scan: Scan) {
    && scan.Live?
    && (forall i :: i in scan.open <==> exists m :: OpenAt(es, i, m))
    && (forall i, m | OpenAt(es, i, m) :: i in scan.open && scan.open[i] == StorageOf(es[m].block))
    && (forall i :: i in scan.seen <==> exists m :: StartedAt(es, i, m))
  }

  lemma OpenOne(es: seq<Event>, e: Event, i: int, m: int)
    ensures OpenAt(es + [e], i, m) <==>
              (OpenAt(es, i, m) && e != BlockStop(i)) || (m == |es| && e.BlockStart? && e.index == i)
    ensures StartedAt(es + [e], i, m) <==> StartedAt(es, i, m) || (m == |es| && e.BlockStart? && e.index == i)
  {
    var all := es + [e];
    assert forall k | 0 <= k < |es| :: all[k] == es[k];
    assert all[|es|] == e;
  }

  lemma SomeOpen(es: seq<Event>, e: Event, i: int)
    ensures (exists m :: OpenAt(es + [e], i, m)) <==>
              ((exists m :: OpenAt(es, i, m)) && e != BlockStop(i)) || (e.BlockStart? && e.index == i)
    ensures (exists m :: StartedAt(es + [e], i, m)) <==>
            (exists m :: StartedAt(es, i, m)) || (e.BlockStart? && e.index == i)
  {
    OpenOne(es, e, i, |es|);
    if m :| OpenAt(es, i, m) {
      OpenOne(es, e, i, m);
    }
    if m :| OpenAt(es + [e], i, m) {
      OpenOne(es, e, i, m);
    }
    if m :| StartedAt(es, i, m) {
      OpenOne(es, e, i, m);
    }
    if m :| StartedAt(es + [e], i, m) {
      OpenOne(es, e, i, m);
    }
  }

  lemma SuitsStorage(block: Block, kind: DeltaType)
    ensures StreamContract.Fits(StorageOf(block), kind) <==> Suits(block, kind)
  {
  }

  /** The loop goes on exactly if the event has its place. */
  lemma FitsStep(es: seq<Event>, scan: Scan, e: Event, allowError: bool)
    requires Reflects(es, scan)
    ensures Step(scan, e, allowError).Live? <==> Fits(es, e, allowError)
  {
    hide OpenAt, StartedAt, StorageOf, IsBlank;
    match e {
      case BlockStart(i, block) =>
        assert i in scan.open ==> exists m :: OpenAt(es, i, m);
        if m :| OpenAt(es, i, m) {
          OpenIsStarted(es, i, m);
        }
      case BlockDelta(i, delta) =>
        DeltaFits(es, scan, i, delta.kind);
      case _ =>
    }
  }

  lemma DeltaFits(es: seq<Event>, scan: Scan, i: int, kind: DeltaType)
    requires Reflects(es, scan)
    ensures i in scan.open && StreamContract.Fits(scan.open[i], kind) <==>
              exists m | OpenAt(es, i, m) :: Suits(es[m].block, kind)
  {
    hide StorageOf, StreamContract.Fits, IsBlank;
    if i in scan.open {
      var m :| OpenAt(es, i, m);
      SuitsStorage(es[m].block, kind);
    }
    if m :| OpenAt(es, i, m) && Suits(es[m].block, kind) {
      SuitsStorage(es[m].block, kind);
    }
  }

  lemma OpenIsStarted(es: seq<Event>, i: int, m: int)
    requires OpenAt(es, i, m)
    ensures 0 <= m < |es| && es[m].BlockStart? && StartedAt(es, i, m)
  {
  }

  lemma ReflectsStep(es: seq<Event>, scan: Scan, e: Event, allowError: bool)
    requires Reflects(es, scan) && Step(scan, e, allowError).Live?
    ensures Reflects(es + [e], Step(scan, e, allowError))
  {
    var t := Step(scan, e, allowError);
    hide StorageOf, StreamContract.Fits;
    forall i
      ensures i in t.open <==> exists m :: OpenAt(es + [e], i, m)
      ensures i in t.seen <==> exists m :: StartedAt(es + [e], i, m)
    {
      SomeOpen(es, e, i);
    }
    forall i, m | OpenAt(es + [e], i, m)
      ensures i in t.open && t.open[i] == StorageOf((es + [e])[m].block)
    {
      OpenOne(es, e, i, m);
      if m < |es| {
        assert (es + [e])[m] == es[m];
        NotAgain(es, scan, e, i, m, allowError);
      }
    }
    hide OpenAt, StartedAt;
  }

  /** An open block is not started again. */
  lemma NotAgain(es: seq<Event>, scan: Scan, e: Event, i: int, m: int, allowError: bool)
    requires Reflects(es, scan) && Step(scan, e, allowError).Live? && OpenAt(es, i, m)
    ensures !(e.BlockStart? && e.index == i)
  {
  }

  lemma {:induction false} ScanReflects(es: seq<Event>, allowError: bool)
    ensures ScanAll(es, allowError).Live? <==> AllFit(es, allowError)
    ensures ScanAll(es, allowError).Live? ==> Reflects(es, ScanAll(es, allowError))
  {
    if es == [] {
      NothingOpen();
    } else {
      var front, e := es[..|es| - 1], es[|es| - 1];
      assert es == front + [e];
      ScanReflects(front, allowError);
      FitOne(front, e, allowError);
      var scan := ScanAll(front, allowError);
      hide Fits, Reflects, AllFit;
      assert ScanAll(es, allowError) == Step(scan, e, allowError);
      if scan.Live? {
        FitsStep(front, scan, e, allowError);
        if Step(scan, e, allowError).Live? {
          ReflectsStep(front, scan, e, allowError);
        }
      }
    }
  }

  lemma NothingOpen()
    ensures Reflects([], EMPTY_SCAN)
  {
    assert forall i, m :: !OpenAt([], i, m) && !StartedAt([], i, m);
  }

  lemma FitOne(front: seq<Event>, e: Event, allowError: bool)
    ensures AllFit(front + [e], allowError) <==> AllFit(front, allowError) && Fits(front, e, allowError)
  {
    hide Fits;
    var es := front + [e];
    assert es[..|front|] == front && es[|front|] == e;
    assert forall n | 0 <= n < |front| :: es[..n] == front[..n] && es[n] == front[n];
  }

  /** The contract's loop accepts exactly the streams in order. */
  lemma ContractMeans(es: seq<Event>, allowError: bool)
    ensures Contract(es, allowError) <==> es != [] && InOrder(es, allowError)
  {
    ScanReflects(es, allowError);
    if ScanAll(es, allowError).Live? {
      LastScan(es, ScanAll(es, allowError));
    }
    hide AllFit, OpenAt, StartedAt, ScanAll, Reflects;
  }

  lemma LastScan(es: seq<Event>, scan: Scan)
    requires Reflects(es, scan)
    ensures scan.open == map[] <==> forall i, m :: !OpenAt(es, i, m)
    ensures scan.seen != {} <==> exists i, m :: StartedAt(es, i, m)
  {
    hide OpenAt, StartedAt, StorageOf;
    if scan.open != map[] {
      var i := Member(scan.open.Keys);
      assert i in scan.open;
      var m :| OpenAt(es, i, m);
    }
    if scan.seen != {} {
      var i := Member(scan.seen);
      var m :| StartedAt(es, i, m);
    }
    if i: int, m: int :| StartedAt(es, i, m) {
      assert i in scan.seen;
    }
  }
}
