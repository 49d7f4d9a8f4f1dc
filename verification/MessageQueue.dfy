/** The compacting queue of outgoing messages (proxy/messaging/limiter.py). */
module MessageQueue {
  import opened Common

  type Key = string
  type Func = int
  type Future = int

  /** How a call of a function ends. */
  datatype Outcome = Returned(value: int) | Raised(error: int)

  /** What a future is done with: by its caller, or by the worker. */
  datatype Settled = Cancelled | Settled(func: Func, outcome: Outcome)

  datatype Entry = Entry(func: Func, futures: seq<Future>)

  datatype State = State(
    keys: seq<Key>, entries: map<Key, Entry>, running: Option<Entry>, served: seq<Future>, done: map<Future, Settled>)

  const EMPTY_QUEUE: State := State([], map[], None, [], map[])

  datatype Step =
    | Enqueue(key: Key, func: Func, futures: seq<Future>, front: bool)
    | Pop
    | Finish(outcome: Outcome)
    | Cancel(future: Future)

  function Put(s: State, key: Key, func: Func, futures: seq<Future>, front: bool): State {
    if key in s.entries then s.(entries := s.entries[key := Entry(func, s.entries[key].futures + futures)])
    else s.(entries := s.entries[key := Entry(func, futures)], keys := if front then [key] + s.keys else s.keys + [key])
  }

  /** The worker takes the next entry; it handles one at a time. */
  function Take(s: State): State {
    if s.running.Some? || s.keys == [] || s.keys[0] !in s.entries then s
    else s.(keys := s.keys[1..], entries := s.entries - {s.keys[0]}, running := Some(s.entries[s.keys[0]]))
  }

  /** Every future that is not done yet gets the outcome. */
  function SettleAll(done: map<Future, Settled>, futures: seq<Future>, func: Func, outcome: Outcome)
    : map<Future, Settled>
  {
    if futures == [] then done
    else
      var settled, f := SettleAll(done, futures[..|futures| - 1], func, outcome), futures[|futures| - 1];
      if f in settled then settled else settled[f := Settled(func, outcome)]
  }

  function Complete(s: State, outcome: Outcome): State {
    if s.running.None? then s
    else
      var entry := s.running.value;
      s.(running := None, served := s.served + entry.futures,
         done := SettleAll(s.done, entry.futures, entry.func, outcome))
  }

  function Next(s: State, step: Step): State {
    match step
    case Enqueue(key, func, futures, front) => Put(s, key, func, futures, front)
    case Pop => Take(s)
    case Finish(outcome) => Complete(s, outcome)
    case Cancel(future) => if future in s.done then s else s.(done := s.done[future := Cancelled])
  }

  function After(steps: seq<Step>): State {
    if steps == [] then EMPTY_QUEUE else Next(After(steps[..|steps| - 1]), steps[|steps| - 1])
  }

  lemma AfterOne(before: seq<Step>, step: Step)
    ensures After(before + [step]) == Next(After(before), step)
  {
    assert (before + [step])[..|before|] == before;
  }

  // --- the list and the map agree ----------------------------------------------------------------

  ghost predicate Consistent(s: State) {
    Distinct(s.keys) && forall key :: key in s.keys <==> key in s.entries
  }

  lemma NextKeepsConsistent(s: State, step: Step)
    requires Consistent(s)
    ensures Consistent(Next(s, step))
  {
    if step.Pop? && Take(s) != s {
      forall key
        ensures key in Take(s).keys <==> key in Take(s).entries
      {
        assert s.keys == [s.keys[0]] + s.keys[1..];
      }
    }
  }

  /** The key list has no duplicates and lists exactly the keys of the map. */
  lemma {:induction false} AlwaysConsistent(steps: seq<Step>)
    ensures Consistent(After(steps))
  {
    if steps != [] {
      AlwaysConsistent(steps[..|steps| - 1]);
      NextKeepsConsistent(After(steps[..|steps| - 1]), steps[|steps| - 1]);
    }
  }

  // --- no future is lost or served twice ------------------------------------------------------------

  function Queued(keys: seq<Key>, entries: map<Key, Entry>): multiset<Future> {
    if keys == [] then multiset{}
    else
      var key := keys[|keys| - 1];
      Queued(keys[..|keys| - 1], entries) + if key in entries then multiset(entries[key].futures) else multiset{}
  }

  function Running(s: State): multiset<Future> {
    if s.running.Some? then multiset(s.running.value.futures) else multiset{}
  }

  /** Every future handed in so far. */
  function HandedIn(steps: seq<Step>): multiset<Future> {
    if steps == [] then multiset{}
    else
      var step := steps[|steps| - 1];
      HandedIn(steps[..|steps| - 1]) + if step.Enqueue? then multiset(step.futures) else multiset{}
  }

  lemma {:induction false} QueuedElsewhere(keys: seq<Key>, entries: map<Key, Entry>, others: map<Key, Entry>)
    requires forall key | key in keys ::
               (key in entries <==> key in others) && (key in entries ==> entries[key] == others[key])
    ensures Queued(keys, entries) == Queued(keys, others)
  {
    if keys != [] {
      QueuedElsewhere(keys[..|keys| - 1], entries, others);
    }
  }

  lemma {:induction false} QueuedFront(key: Key, keys: seq<Key>, entries: map<Key, Entry>)
    ensures Queued([key] + keys, entries) ==
              (if key in entries then multiset(entries[key].futures) else multiset{}) + Queued(keys, entries)
  {
    if keys == [] {
      assert [key] + keys == [key] && [key][..0] == [];
    } else {
      QueuedFront(key, keys[..|keys| - 1], entries);
      assert ([key] + keys)[..|keys|] == [key] + keys[..|keys| - 1];
    }
  }

  lemma QueuedBack(keys: seq<Key>, key: Key, entries: map<Key, Entry>)
    ensures Queued(keys + [key], entries) ==
              Queued(keys, entries) + if key in entries then multiset(entries[key].futures) else multiset{}
  {
    assert (keys + [key])[..|keys|] == keys;
  }

  /** Compaction adds the new futures to the entry they join. */
  lemma {:induction false} QueuedGrows(keys: seq<Key>, entries: map<Key, Entry>, key: Key, func: Func,
      futures: seq<Future>)
    requires Distinct(keys) && key in keys && key in entries
    ensures Queued(keys, entries[key := Entry(func, entries[key].futures + futures)]) ==
            Queued(keys, entries) + multiset(futures)
  {
    var grown := entries[key := Entry(func, entries[key].futures + futures)];
    var before, last := keys[..|keys| - 1], keys[|keys| - 1];
    if last == key {
      assert key !in before;
      QueuedElsewhere(before, entries, grown);
    } else {
      assert keys == before + [last];
      QueuedGrows(before, entries, key, func, futures);
    }
  }

  lemma PutConserves(s: State, key: Key, func: Func, futures: seq<Future>, front: bool)
    requires Consistent(s)
    ensures var t := Put(s, key, func, futures, front);
            Queued(t.keys, t.entries) == Queued(s.keys, s.entries) + multiset(futures)
  {
    var t := Put(s, key, func, futures, front);
    if key in s.entries {
      QueuedGrows(s.keys, s.entries, key, func, futures);
    } else {
      QueuedElsewhere(s.keys, s.entries, t.entries);
      if front {
        QueuedFront(key, s.keys, t.entries);
      } else {
        QueuedBack(s.keys, key, t.entries);
      }
    }
  }

  lemma TakeConserves(s: State)
    requires Consistent(s)
    ensures var t := Take(s); Queued(t.keys, t.entries) + Running(t) == Queued(s.keys, s.entries) + Running(s)
  {
    var t := Take(s);
    if t != s {
      assert s.keys == [s.keys[0]] + s.keys[1..];
      QueuedFront(s.keys[0], s.keys[1..], s.entries);
      QueuedElsewhere(s.keys[1..], s.entries, t.entries);
    }
  }

  function Everywhere(s: State): multiset<Future> {
    Queued(s.keys, s.entries) + Running(s) + multiset(s.served)
  }

  lemma NextConserves(s: State, step: Step)
    requires Consistent(s)
    ensures Everywhere(Next(s, step)) == Everywhere(s) + if step.Enqueue? then multiset(step.futures) else multiset{}
  {
    hide Queued, SettleAll;
    match step {
      case Enqueue(key, func, futures, front) => PutConserves(s, key, func, futures, front);
      case Pop => TakeConserves(s);
      case Finish(outcome) =>
        if s.running.Some? {
          var futures := s.running.value.futures;
          assert multiset(s.served + futures) == multiset(s.served) + multiset(futures);
        }
      case Cancel(future) =>
    }
  }

  /** Queued, in flight or served: together exactly the futures handed in, so a
      future handed in once is in exactly one of these places, once. */
  lemma {:induction false} FuturesAreConserved(steps: seq<Step>)
    ensures Everywhere(After(steps)) == HandedIn(steps)
  {
    if steps == [] {
      assert Queued([], map[]) == multiset{};
    } else {
      hide Next, Everywhere;
      var before := steps[..|steps| - 1];
      FuturesAreConserved(before);
      AlwaysConsistent(before);
      NextConserves(After(before), steps[|steps| - 1]);
    }
  }

  // --- what a future gets ----------------------------------------------------------------------------------

  /** The function of the last call to enqueue under this key. */
  function LatestFunc(steps: seq<Step>, key: Key): Option<Func> {
    if steps == [] then None
    else
      var step := steps[|steps| - 1];
      if step.Enqueue? && step.key == key then Some(step.func) else LatestFunc(steps[..|steps| - 1], key)
  }

  /** The futures handed in under this key since the worker last took it. */
  function FuturesSince(steps: seq<Step>, key: Key): seq<Future> {
    if steps == [] then []
    else
      var before, step := steps[..|steps| - 1], steps[|steps| - 1];
      if step.Enqueue? && step.key == key then FuturesSince(before, key) + step.futures
      else if step.Pop? && key in After(before).entries && key !in After(steps).entries then []
      else FuturesSince(before, key)
  }

  lemma {:induction false} EntriesAreLatest(steps: seq<Step>, key: Key)
    ensures if key in After(steps).entries
            then After(steps).entries[key].futures == FuturesSince(steps, key)
                && LatestFunc(steps, key) == Some(After(steps).entries[key].func)
            else FuturesSince(steps, key) == []
  {
    if steps != [] {
      hide SettleAll;
      var before, step := steps[..|steps| - 1], steps[|steps| - 1];
      EntriesAreLatest(before, key);
      assert After(steps) == Next(After(before), step);
      hide After;
    }
  }

  /** The worker runs the latest function enqueued for the key, on behalf of every
      future handed in under it since it was last taken. */
  lemma TakesTheLatest(steps: seq<Step>)
    requires After(steps).running.None? && After(steps).keys != []
    ensures var key := After(steps).keys[0];
            After(steps + [Pop]).running.Some?
            && Some(After(steps + [Pop]).running.value.func) == LatestFunc(steps, key)
            && After(steps + [Pop]).running.value.futures == FuturesSince(steps, key)
  {
    assert (steps + [Pop])[..|steps|] == steps;
    AlwaysConsistent(steps);
    EntriesAreLatest(steps, After(steps).keys[0]);
  }

  lemma {:induction false} SettleAllSettles(done: map<Future, Settled>, futures: seq<Future>, func: Func,
      outcome: Outcome)
    ensures var settled := SettleAll(done, futures, func, outcome);
            && (forall f | f in done :: f in settled && settled[f] == done[f])
            && (forall f | f in futures && f !in done :: f in settled && settled[f] == Settled(func, outcome))
            && (forall f | f in settled :: f in done || f in futures)
  {
    if futures != [] {
      var before, f := futures[..|futures| - 1], futures[|futures| - 1];
      SettleAllSettles(done, before, func, outcome);
      assert futures == before + [f];
    }
  }

  /** When a function ends, each of its futures that nobody has cancelled gets
      exactly its outcome; no other future changes. */
  lemma FinishSettles(steps: seq<Step>, outcome: Outcome, f: Future)
    requires After(steps).running.Some?
    ensures var s, t := After(steps), After(steps + [Finish(outcome)]);
            if f in s.done then f in t.done && t.done[f] == s.done[f]
            else if f in s.running.value.futures then f in t.done && t.done[f] == Settled(s.running.value.func, outcome)
            else f !in t.done
  {
    assert (steps + [Finish(outcome)])[..|steps|] == steps;
    var s := After(steps);
    SettleAllSettles(s.done, s.running.value.futures, s.running.value.func, outcome);
  }

  /** What a future is done with never changes. */
  lemma {:induction false} SettledForever(steps: seq<Step>, n: nat, f: Future)
    requires n <= |steps| && f in After(steps[..n]).done
    ensures f in After(steps).done && After(steps).done[f] == After(steps[..n]).done[f]
  {
    if n == |steps| {
      assert steps[..n] == steps;
    } else {
      var before, step := steps[..|steps| - 1], steps[|steps| - 1];
      assert before[..n] == steps[..n];
      SettledForever(before, n, f);
      var s := After(before);
      if step.Finish? && s.running.Some? {
        SettleAllSettles(s.done, s.running.value.futures, s.running.value.func, step.outcome);
      }
    }
  }

  /** What nobody cancels is done exactly when the worker has served it. */
  lemma {:induction false} DoneExactlyWhenServed(steps: seq<Step>, f: Future)
    requires Cancel(f) !in steps
    ensures f in After(steps).done <==> f in After(steps).served
  {
    if steps != [] {
      var before, step := steps[..|steps| - 1], steps[|steps| - 1];
      assert steps == before + [step];
      DoneExactlyWhenServed(before, f);
      var s := After(before);
      if step.Finish? && s.running.Some? {
        SettleAllSettles(s.done, s.running.value.futures, s.running.value.func, step.outcome);
      }
    }
  }

  // --- the way of one future -------------------------------------------------------------------------------

  predicate WaitsUnder(s: State, key: Key, f: Future) {
    key in s.entries && f in s.entries[key].futures
  }

  predicate InFlight(s: State, f: Future) {
    s.running.Some? && f in s.running.value.futures
  }

  /** The worker took `key` at step `p` and no call has ended between then and `q`. */
  ghost predicate TakenAt(steps: seq<Step>, key: Key, p: nat, q: nat) {
    && p < q <= |steps| && steps[p] == Pop
    && After(steps[..p]).running.None? && After(steps[..p]).keys != [] && After(steps[..p]).keys[0] == key
    && LatestFunc(steps[..p], key).Some?
    && forall i | p < i < q :: !steps[i].Finish?
  }

  /** The latest function of `key` runs for `f`. */
  ghost predicate RunsFor(steps: seq<Step>, key: Key, f: Future, p: nat) {
    && TakenAt(steps, key, p, |steps|) && InFlight(After(steps), f)
    && After(steps).running.value.func == LatestFunc(steps[..p], key).value
  }

  /** It ended at step `q`, and `f` got its outcome. */
  ghost predicate ServedAt(steps: seq<Step>, key: Key, f: Future, p: nat, q: nat) {
    && q < |steps| && TakenAt(steps, key, p, q) && steps[q].Finish?
    && f in After(steps).served && f in After(steps).done
    && After(steps).done[f] == Settled(LatestFunc(steps[..p], key).value, steps[q].outcome)
  }

  lemma TakenStays(before: seq<Step>, step: Step, key: Key, p: nat, q: nat)
    requires TakenAt(before, key, p, q)
    ensures TakenAt(before + [step], key, p, q)
    ensures q == |before| && !step.Finish? ==> TakenAt(before + [step], key, p, q + 1)
    ensures (before + [step])[..p] == before[..p]
  {
    assert (before + [step])[..p] == before[..p];
  }

  lemma TakenNow(before: seq<Step>, key: Key, f: Future)
    requires WaitsUnder(After(before), key, f) && After(before).running.None?
    requires After(before).keys != [] && After(before).keys[0] == key
    ensures RunsFor(before + [Pop], key, f, |before|)
  {
    TakesTheLatest(before);
    EntriesAreLatest(before, key);
    assert (before + [Pop])[..|before|] == before;
    hide After, LatestFunc, FuturesSince;
  }

  /** From the queue a future stays under its key or is taken with it. */
  lemma FromQueue(before: seq<Step>, step: Step, key: Key, f: Future)
    requires WaitsUnder(After(before), key, f)
    ensures WaitsUnder(After(before + [step]), key, f) || RunsFor(before + [step], key, f, |before|)
  {
    AfterOne(before, step);
    var s := After(before);
    hide RunsFor, SettleAll, After;
    if step == Pop && Take(s) != s && s.keys[0] == key {
      TakenNow(before, key, f);
    }
  }

  /** A future in flight stays so until its function ends. */
  lemma FromFlight(before: seq<Step>, step: Step, key: Key, f: Future, p: nat)
    requires RunsFor(before, key, f, p) && f !in After(before).done
    ensures if step.Finish? then ServedAt(before + [step], key, f, p, |before|) else RunsFor(before + [step], key, f, p)
  {
    assert (before + [step])[..|before|] == before;
    TakenStays(before, step, key, p, |before|);
    hide TakenAt, LatestFunc;
    var s := After(before);
    if step.Finish? {
      SettleAllSettles(s.done, s.running.value.futures, s.running.value.func, step.outcome);
    }
  }

  lemma ServedStays(before: seq<Step>, step: Step, key: Key, f: Future, p: nat, q: nat)
    requires ServedAt(before, key, f, p, q)
    ensures ServedAt(before + [step], key, f, p, q)
  {
    assert (before + [step])[..|before|] == before;
    TakenStays(before, step, key, p, q);
    SettledForever(before + [step], |before|, f);
    hide TakenAt, LatestFunc, SettleAll;
  }

  lemma {:induction false} WaitingIsQueued(keys: seq<Key>, entries: map<Key, Entry>, key: Key, f: Future)
    requires key in keys && key in entries && f in entries[key].futures
    ensures Queued(keys, entries)[f] >= 1
  {
    var before, last := keys[..|keys| - 1], keys[|keys| - 1];
    assert keys == before + [last];
    if last != key {
      WaitingIsQueued(before, entries, key, f);
    } else {
      assert f in multiset(entries[key].futures);
    }
  }

  /** Exactly one of the three places. */
  lemma PlacesExclude(steps: seq<Step>, key: Key, f: Future)
    requires HandedIn(steps)[f] == 1
    ensures var s := After(steps);
            && (WaitsUnder(s, key, f) ==> !InFlight(s, f) && f !in s.served)
            && (InFlight(s, f) ==> f !in s.served)
  {
    FuturesAreConserved(steps);
    AlwaysConsistent(steps);
    hide After, HandedIn, Queued;
    var s := After(steps);
    if WaitsUnder(s, key, f) {
      WaitingIsQueued(s.keys, s.entries, key, f);
    }
    Elsewhere(Queued(s.keys, s.entries), Running(s), multiset(s.served), f);
  }

  lemma Elsewhere(a: multiset<Future>, b: multiset<Future>, c: multiset<Future>, f: Future)
    requires (a + b + c)[f] == 1
    ensures (f in a ==> f !in b && f !in c) && (f in b ==> f !in c)
  {
  }

  lemma HandedInBefore(steps: seq<Step>, n: nat, f: Future)
    requires n < |steps| && steps[n].Enqueue? && f in steps[n].futures
    ensures HandedIn(steps)[f] >= 1
    ensures n < |steps| - 1 ==> HandedIn(steps[..|steps| - 1])[f] >= 1
    decreases |steps|
  {
    if n < |steps| - 1 {
      HandedInBefore(steps[..|steps| - 1], n, f);
    } else {
      assert multiset(steps[n].futures)[f] >= 1;
    }
  }

  /** The whole way: a future handed in once under `key`, and not cancelled, waits
      under that key, or is in flight, or has been served, and just one of these.
      The function that runs for it is the latest one enqueued for `key` when the
      worker took it, and it is done, exactly once served, with the outcome with
      which that very call ended. */
  lemma {:induction false} FutureIsServedOnce(steps: seq<Step>, n: nat, f: Future) returns (p: nat, q: nat)
    requires n < |steps| && steps[n].Enqueue? && f in steps[n].futures
    requires HandedIn(steps)[f] == 1 && Cancel(f) !in steps
    ensures var s, key := After(steps), steps[n].key;
            && (WaitsUnder(s, key, f) || (n < p && RunsFor(steps, key, f, p))
                 || (n < p && ServedAt(steps, key, f, p, q)))
            && (WaitsUnder(s, key, f) ==> !InFlight(s, f) && f !in s.served)
            && (InFlight(s, f) ==> f !in s.served)
            && (f in s.done <==> f in s.served)
  {
    var before, step, key := steps[..|steps| - 1], steps[|steps| - 1], steps[n].key;
    assert steps == before + [step];
    PlacesExclude(steps, key, f);
    DoneExactlyWhenServed(steps, f);
    p, q := 0, 0;
    if n < |before| {
      HandedInBefore(steps, n, f);
      assert before[n] == steps[n];
      p, q := FutureIsServedOnce(before, n, f);
      hide After, WaitsUnder, RunsFor, ServedAt, InFlight;
      if WaitsUnder(After(before), key, f) {
        FromQueue(before, step, key, f);
        p := if WaitsUnder(After(steps), key, f) then p else |before|;
      } else if RunsFor(before, key, f, p) {
        StillRuns(before, key, f, p);
        FromFlight(before, step, key, f, p);
        q := if step.Finish? then |before| else q;
      } else {
        ServedStays(before, step, key, f, p, q);
      }
    }
  }

  lemma StillRuns(steps: seq<Step>, key: Key, f: Future, p: nat)
    requires RunsFor(steps, key, f, p)
    ensures InFlight(After(steps), f)
  {
  }

  // --- order -------------------------------------------------------------------------------------------------------

  /** When and where a key last came into the queue. */
  datatype Arrival = Arrival(at: nat, front: bool)

  function Arrived(steps: seq<Step>, key: Key): Arrival {
    if steps == [] then Arrival(0, false)
    else
      var before, step := steps[..|steps| - 1], steps[|steps| - 1];
      if step.Enqueue? && step.key == key && key !in After(before).entries then Arrival(|before|, step.front)
      else Arrived(before, key)
  }

  /** Who came in front is served before all that were there, everybody else
      after them. */
  predicate Sooner(a: Arrival, b: Arrival) {
    if a.front then !b.front || b.at < a.at else !b.front && a.at < b.at
  }

  ghost predicate InOrder(steps: seq<Step>) {
    forall i, k | 0 <= i < k < |After(steps).keys| ::
      Sooner(Arrived(steps, After(steps).keys[i]), Arrived(steps, After(steps).keys[k]))
  }

  lemma {:induction false} ArrivedEarlier(steps: seq<Step>, key: Key)
    requires key in After(steps).entries
    ensures Arrived(steps, key).at < |steps|
  {
    if steps != [] && key in After(steps[..|steps| - 1]).entries {
      ArrivedEarlier(steps[..|steps| - 1], key);
    }
  }

  /** The queue is always in one order: first the keys put in front, the last of
      them first, then the others in the order in which they came, however often
      any of them is enqueued again meanwhile. */
  lemma {:induction false} ServedInOrder(steps: seq<Step>)
    ensures InOrder(steps)
  {
    if steps != [] {
      var before, step := steps[..|steps| - 1], steps[|steps| - 1];
      ServedInOrder(before);
      AlwaysConsistent(before);
      StepKeepsOrder(before, step);
      assert before + [step] == steps;
    }
  }

  lemma ArrivedNow(before: seq<Step>, step: Step, key: Key)
    ensures Arrived(before + [step], key) ==
              if step.Enqueue? && step.key == key && key !in After(before).entries then Arrival(|before|, step.front)
              else Arrived(before, key)
  {
    assert (before + [step])[..|before|] == before;
  }

  lemma NewKeyKeepsOrder(before: seq<Step>, step: Step)
    requires InOrder(before) && Consistent(After(before)) && step.Enqueue? && step.key !in After(before).entries
    ensures InOrder(before + [step])
  {
    AfterOne(before, step);
    var steps := before + [step];
    var s, t := After(before), After(steps);
    forall key
      ensures key in s.keys ==> Arrived(before, key).at < |before| && Arrived(steps, key) == Arrived(before, key)
      ensures key == step.key ==> Arrived(steps, key) == Arrival(|before|, step.front)
    {
      ArrivedNow(before, step, key);
      if key in s.keys {
        ArrivedEarlier(before, key);
      }
    }
    hide After, Arrived;
    assert t.keys == if step.front then [step.key] + s.keys else s.keys + [step.key];
  }

  lemma OldKeysKeepOrder(before: seq<Step>, step: Step)
    requires InOrder(before) && !(step.Enqueue? && step.key !in After(before).entries)
    ensures InOrder(before + [step])
  {
    AfterOne(before, step);
    var s, t := After(before), After(before + [step]);
    forall key
      ensures Arrived(before + [step], key) == Arrived(before, key)
    {
      ArrivedNow(before, step, key);
    }
    assert t.keys == s.keys || (s.keys != [] && t.keys == s.keys[1..]);
    hide After, Arrived;
  }

  lemma StepKeepsOrder(before: seq<Step>, step: Step)
    requires InOrder(before) && Consistent(After(before))
    ensures InOrder(before + [step])
  {
    hide InOrder, After, Consistent;
    if step.Enqueue? && step.key !in After(before).entries {
      NewKeyKeepsOrder(before, step);
    } else {
      OldKeysKeepOrder(before, step);
    }
  }

  // --- nobody is overtaken from behind ---------------------------------------------------------------

  /** Step `m` of the history takes `key` out of the queue. */
  predicate Takes(steps: seq<Step>, m: nat, key: Key)
    requires m < |steps|
  {
    var s := After(steps[..m]);
    steps[m] == Pop && s.running.None? && s.keys != [] && s.keys[0] == key
  }

  ghost predicate Ahead(keys: seq<Key>, x: Key, y: Key) {
    exists i, k :: 0 <= i < k < |keys| && keys[i] == x && keys[k] == y
  }

  lemma SoonerIsAhead(steps: seq<Step>, x: Key, y: Key)
    requires x in After(steps).keys && y in After(steps).keys && x != y
    requires Sooner(Arrived(steps, x), Arrived(steps, y))
    ensures Ahead(After(steps).keys, x, y)
  {
    ServedInOrder(steps);
    var keys := After(steps).keys;
    var i :| 0 <= i < |keys| && keys[i] == x;
    var k :| 0 <= k < |keys| && keys[k] == y;
    assert k < i ==> Sooner(Arrived(steps, keys[k]), Arrived(steps, keys[i]));
  }

  lemma StepKeepsAhead(s: State, step: Step, x: Key, y: Key)
    requires Consistent(s) && Ahead(s.keys, x, y)
    requires !(step.Pop? && s.running.None? && s.keys[0] == x)
    ensures Ahead(Next(s, step).keys, x, y)
  {
    hide SettleAll;
    var i, k :| 0 <= i < k < |s.keys| && s.keys[i] == x && s.keys[k] == y;
    var keys := Next(s, step).keys;
    if step.Enqueue? && step.key !in s.entries {
      var shift := if step.front then 1 else 0;
      assert keys[i + shift] == x && keys[k + shift] == y;
    } else if step.Pop? && keys != s.keys {
      assert keys[i - 1] == x && keys[k - 1] == y;
    } else {
      assert keys == s.keys;
    }
  }

  lemma {:induction false} StaysAhead(steps: seq<Step>, n: nat, m: nat, x: Key, y: Key)
    requires n <= m <= |steps| && Ahead(After(steps[..n]).keys, x, y)
    requires forall k | n <= k < m :: !Takes(steps, k, x)
    ensures Ahead(After(steps[..m]).keys, x, y)
  {
    if n < m {
      StaysAhead(steps, n, m - 1, x, y);
      AlwaysConsistent(steps[..m - 1]);
      assert steps[..m] == steps[..m - 1] + [steps[m - 1]];
      AfterOne(steps[..m - 1], steps[m - 1]);
      assert !Takes(steps, m - 1, x);
      hide After, Consistent, Next;
      assert After(steps[..m - 1]).keys != [];
      StepKeepsAhead(After(steps[..m - 1]), steps[m - 1], x, y);
    }
  }

  /** Of two queued keys the sooner one is taken first, whatever else is enqueued,
      in front or behind, and however often either is enqueued again. */
  lemma SoonerIsTakenFirst(steps: seq<Step>, n: nat, m: nat, x: Key, y: Key) returns (k: nat)
    requires n <= m < |steps| && x != y && x in After(steps[..n]).keys && y in After(steps[..n]).keys
    requires Sooner(Arrived(steps[..n], x), Arrived(steps[..n], y))
    requires Takes(steps, m, y)
    ensures n <= k < m && Takes(steps, k, x)
  {
    SoonerIsAhead(steps[..n], x, y);
    AlwaysConsistent(steps[..m]);
    if forall j | n <= j < m :: !Takes(steps, j, x) {
      StaysAhead(steps, n, m, x, y);
      NotFirst(After(steps[..m]).keys, x, y);
      assert false;
    }
    k :| n <= k < m && Takes(steps, k, x);
  }

  lemma NotFirst(keys: seq<Key>, x: Key, y: Key)
    requires Distinct(keys) && Ahead(keys, x, y)
    ensures keys != [] && keys[0] != y
  {
  }

  // --- the limiter as an object -----------------------------------------------------------------------------------

  class MessagingRateLimiter {
    var queueList: seq<Key>
    var queueMap: map<Key, Entry>
    var running: Option<Entry>
    var done: map<Future, Settled>
    ghost var served: seq<Future>

    ghost function Model(): State
      reads this
    {
      State(queueList, queueMap, running, served, done)
    }

    constructor ()
      ensures Model() == EMPTY_QUEUE
    {
      queueList, queueMap, running, done, served := [], map[], None, map[], [];
    }

    method EnqueueInternalMulti(func: Func, futures: seq<Future>, dedupKey: Key, front: bool)
      modifies this
      ensures Model() == Next(old(Model()), Enqueue(dedupKey, func, futures, front))
    {
      if dedupKey in queueMap {
        var existing := queueMap[dedupKey];
        queueMap := queueMap[dedupKey := Entry(func, existing.futures + futures)];
      } else {
        queueMap := queueMap[dedupKey := Entry(func, futures)];
        if front {
          queueList := [dedupKey] + queueList;
        } else {
          queueList := queueList + [dedupKey];
        }
      }
    }

    /** The worker's wait for work; it is woken only when there is some. */
    method TakeNext() returns (entry: Entry)
      requires Consistent(Model()) && queueList != [] && running.None?
      modifies this
      ensures Model() == Next(old(Model()), Pop) && running == Some(entry)
    {
      var dedupKey := queueList[0];
      assert dedupKey in queueList;
      queueList := queueList[1..];
      entry := queueMap[dedupKey];
      queueMap := queueMap - {dedupKey};
      running := Some(entry);
    }

    /** Resolves the futures of the function that has just ended. */
    method ResolveFutures(outcome: Outcome)
      requires running.Some?
      modifies this
      ensures Model() == Next(old(Model()), Finish(outcome))
    {
      var entry := running.value;
      for i := 0 to |entry.futures|
        invariant done == SettleAll(old(done), entry.futures[..i], entry.func, outcome)
        invariant queueList == old(queueList) && queueMap == old(queueMap) && running == Some(entry)
                  && served == old(served)
      {
        assert entry.futures[..i + 1][..i] == entry.futures[..i];
        if entry.futures[i] !in done {
          done := done[entry.futures[i] := Settled(entry.func, outcome)];
        }
      }
      assert entry.futures[..|entry.futures|] == entry.futures;
      running := None;
      served := served + entry.futures;
    }
  }
}
