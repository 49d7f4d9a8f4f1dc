/** What holds over every run of Controller, daemons and network. */
module ProtocolTheorems {
  import opened Common
  import opened LeaseState
  import opened LeaseInvariants
  import opened LeaseTheorems
  import opened Protocol
  import W = Worker

  /** All envelopes ever sent for one run are identical, through lost replies,
      repeated executions and restarts alike. */
  lemma SentAreIdentical(steps: seq<Step>, env: Envelope, other: Envelope)
    requires env in Reached(steps).sent && other in Reached(steps).sent && env.run == other.run
    ensures env == other
  {
    AlwaysSafe(steps);
  }

  /** What a daemon has sent is accepted as long as the run is RUNNING, even past
      the end of its lease, is a duplicate once it has been stored, and is stale
      exactly when the lease was reclaimed; it is never refused, and it is stored
      as it was sent. */
  lemma SentIsNeverRefused(steps: seq<Step>, env: Envelope)
    requires env in Reached(steps).sent
    ensures var s := Reached(steps).tables;
            && env.run in s.runs && s.runs[env.run].job in s.jobs
            && Ingest(s, env) ==
                 match s.runs[env.run].state
                 case Leased => (Store(s, env.run, env), Accepted)
                 case Reported(_) => (s, Duplicate)
                 case Stale => (s, StaleResult)
  {
    AlwaysSafe(steps);
    IngestOfSent(Reached(steps), env);
  }

  /** A stored result is the envelope that the run's own worker sent. */
  lemma StoredWasSent(steps: seq<Step>, r: Id)
    requires var s := Reached(steps).tables; r in s.runs && s.runs[r].state.Reported?
    ensures var w := Reached(steps);
            && w.tables.runs[r].result.Some? && w.tables.runs[r].result.value in w.sent
            && OwnsLease(w.tables.runs[r], w.tables.runs[r].result.value)
  {
    AlwaysSafe(steps);
    var w := Reached(steps);
    var env :| env in w.sent && env.run == r && w.tables.runs[r].result == Some(env);
    assert WellSent(w, env);
    assert Agrees(w.tables, r, w.issued[r]);
  }

  /** Under the daemons every waiting job can be approved and rejected: none of
      them reports the empty gate. */
  lemma EveryWaitCanBeDecided(steps: seq<Step>, j: Id, now: int) returns (r: Id, g: Gate)
    requires Waiting(Reached(steps).tables, j)
    ensures var s := Reached(steps).tables;
            && IsAwaited(s, j, r, g) && g != ""
            && forall ruling | ValidRuling(ruling) ::
                 Resolve(s, j, g, ruling, Some(r), now).1 == Resolved(RowOf(ruling, r, s.jobs[j].task, now))
  {
    AlwaysSafe(steps);
    var w := Reached(steps);
    r, g := AwaitedGate(w.tables, j, now);
    hide Reached, ValidRuling, Strip, Decided, Restrained;
    assert WaitsFor(w.tables, r, g) && WellRecorded(w.tables, r);
    var env :| env in w.sent && env.run == r && w.tables.runs[r].result == Some(env);
    assert WellSent(w, env);
  }

  lemma NextKeepsSettled(w: World, step: Step, r: Id)
    requires Settled(w.tables, r)
    ensures Settled(Next(w, step).tables, r) && Next(w, step).tables.runs[r] == w.tables.runs[r]
  {
    if Allowed(w, step) {
      match step {
        case Operate(op) => SettledStepwise(w.tables, op, w.clock, r);
        case HandleClaim(worker, run, lease, token) => SettledStepwise(w.tables, DoClaim(worker, run, lease, token),
            w.clock, r);
        case Deliver(env) => SettledStepwise(w.tables, DoIngest(env), w.clock, r);
        case Local(worker, action) =>
        case Tick(later) =>
      }
    }
  }

  /** Each run leaves RUNNING at most once. */
  lemma {:induction false} RunLeavesOnce(steps: seq<Step>, n: nat, r: Id)
    requires n <= |steps| && Settled(Reached(steps[..n]).tables, r)
    ensures Settled(Reached(steps).tables, r)
    ensures Reached(steps).tables.runs[r] == Reached(steps[..n]).tables.runs[r]
  {
    if n == |steps| {
      assert steps[..n] == steps;
    } else {
      var before := steps[..|steps| - 1];
      assert before[..n] == steps[..n];
      RunLeavesOnce(before, n, r);
      NextKeepsSettled(Reached(before), steps[|steps| - 1], r);
    }
  }

  /** Once a claim is on disk it stays there until its run has left RUNNING or
      its lease has run out. */
  lemma ClaimsAreDurable(steps: seq<Step>, r: Id)
    requires var w := Reached(steps); r in w.kept
    ensures var w := Reached(steps);
            && r in w.tables.runs && r in w.issued
            && (w.tables.runs[r].state == Leased && w.tables.runs[r].expires >= w.clock ==>
                  var file := DaemonOf(w, w.tables.runs[r].worker).file;
                  file.Some? && file.value.claim == w.issued[r])
  {
    AlwaysSafe(steps);
    var w := Reached(steps);
    assert Lapsed(w.tables, r, w.clock) || InFile(w, r);
    assert WellKept(w, w.tables.runs[r].worker);
  }

  /** A daemon may forget an envelope only when its run is no longer RUNNING. */
  lemma ForgetsOnlyWhenSettled(steps: seq<Step>, worker: Id)
    requires Allowed(Reached(steps), Local(worker, W.Clear))
    ensures var w := Reached(steps); var d := DaemonOf(w, worker);
            && d.active.Some? && Lapsed(w.tables, d.active.value.run, w.clock)
            && (d.pending.Some? ==> Settled(w.tables, d.active.value.run))
  {
    AlwaysSafe(steps);
    var w := Reached(steps);
    assert WellKept(w, worker);
    var d := DaemonOf(w, worker);
    if d.pending.Some? {
      assert d.pending.value in w.answered;
    }
  }

  // --- retrying cannot get stuck -----------------------------------------------------------------------------

  ghost function Onward(w: World, steps: seq<Step>): World
    decreases |steps|
  {
    if steps == [] then w else Onward(Next(w, steps[0]), steps[1..])
  }

  ghost predicate AllAllowed(w: World, steps: seq<Step>)
    decreases |steps|
  {
    steps == [] || (Allowed(w, steps[0]) && AllAllowed(Next(w, steps[0]), steps[1..]))
  }

  function Resend(worker: Id): seq<Step> {
    [Local(worker, W.Restart), Local(worker, W.Resume), Local(worker, W.Save), Local(worker, W.Send)]
  }

  function Conclude(worker: Id, env: Envelope): seq<Step> {
    [Deliver(env), Local(worker, W.Clear), Local(worker, W.Unlink)]
  }

  lemma Unroll(w: World, step: Step, rest: seq<Step>)
    ensures Onward(w, [step] + rest) == Onward(Next(w, step), rest)
    ensures AllAllowed(w, [step] + rest) <==> Allowed(w, step) && AllAllowed(Next(w, step), rest)
    ensures Onward(Next(w, step), []) == Next(w, step) && AllAllowed(Next(w, step), [])
  {
    hide Next, Allowed;
    assert ([step] + rest)[1..] == rest;
  }

  lemma StoreSettles(w: World, env: Envelope)
    requires Safe(w) && env in w.sent
    ensures Settled(Ingest(w.tables, env).0, env.run) && Ingest(w.tables, env).1 != RefusedResult
  {
    IngestOfSent(w, env);
  }

  lemma RestartWorks(w: World, worker: Id)
    requires DaemonOf(w, worker).file.Some?
    ensures var file := DaemonOf(w, worker).file; var steps := [Local(worker, W.Restart), Local(worker, W.Resume)];
            var v := Onward(w, steps);
            && AllAllowed(w, steps) && v.tables == w.tables && v.sent == w.sent
            && DaemonOf(v, worker) == W.Daemon(Some(file.value.claim), file.value.pending, file, W.Held)
  {
    hide Onward, AllAllowed;
    var restart, resume := Local(worker, W.Restart), Local(worker, W.Resume);
    var v := Next(w, restart);
    Unroll(w, restart, [resume]);
    assert [restart, resume] == [restart] + [resume];
    Unroll(v, resume, []);
    assert [resume] == [resume] + [];
  }

  lemma SaveAndSendWorks(w: World, worker: Id)
    requires var d := DaemonOf(w, worker); d.phase == W.Held && d.active.Some? && d.pending.Some?
    ensures var d := DaemonOf(w, worker); var steps := [Local(worker, W.Save), Local(worker, W.Send)];
            var v := Onward(w, steps);
            && AllAllowed(w, steps) && v.tables == w.tables && v.sent == w.sent + {d.pending.value}
            && DaemonOf(v, worker) == W.Daemon(d.active, d.pending, Some(W.Saved(d.active.value, d.pending)), W.Sending)
  {
    hide Onward, AllAllowed;
    var save, send := Local(worker, W.Save), Local(worker, W.Send);
    var v := Next(w, save);
    Unroll(w, save, [send]);
    assert [save, send] == [save] + [send];
    Unroll(v, send, []);
    assert [send] == [send] + [];
  }

  lemma {:induction false} OnwardSplits(w: World, a: seq<Step>, b: seq<Step>)
    ensures Onward(w, a + b) == Onward(Onward(w, a), b)
    ensures AllAllowed(w, a + b) <==> AllAllowed(w, a) && AllAllowed(Onward(w, a), b)
    decreases |a|
  {
    hide Next, Allowed;
    if a == [] {
      assert a + b == b;
    } else {
      OnwardSplits(Next(w, a[0]), a[1..], b);
      assert (a + b)[1..] == a[1..] + b;
    }
  }

  lemma ResendWorks(w: World, worker: Id)
    requires DaemonOf(w, worker).file.Some? && DaemonOf(w, worker).file.value.pending.Some?
    ensures var file := DaemonOf(w, worker).file; var v := Onward(w, Resend(worker));
            && AllAllowed(w, Resend(worker))
            && v.tables == w.tables && v.sent == w.sent + {file.value.pending.value}
            && DaemonOf(v, worker) == W.Daemon(Some(file.value.claim), file.value.pending, file, W.Sending)
  {
    hide Onward, AllAllowed, DaemonOf;
    var first, second := [Local(worker, W.Restart), Local(worker, W.Resume)],
        [Local(worker, W.Save), Local(worker, W.Send)];
    RestartWorks(w, worker);
    SaveAndSendWorks(Onward(w, first), worker);
    OnwardSplits(w, first, second);
    assert Resend(worker) == first + second;
  }

  lemma ForgetWorks(w: World, worker: Id)
    requires var d := DaemonOf(w, worker); d.phase == W.Sending && d.pending.Some? && d.pending.value in w.answered
    ensures var steps := [Local(worker, W.Clear), Local(worker, W.Unlink)];
            && AllAllowed(w, steps) && Onward(w, steps).tables == w.tables
                 && DaemonOf(Onward(w, steps), worker) == W.FRESH_DAEMON
  {
    hide Onward, AllAllowed, Renewable;
    var clear, unlink := Local(worker, W.Clear), Local(worker, W.Unlink);
    var v := Next(w, clear);
    Unroll(w, clear, [unlink]);
    assert [clear, unlink] == [clear] + [unlink];
    Unroll(v, unlink, []);
    assert [unlink] == [unlink] + [];
  }

  lemma DeliverAnswers(w: World, env: Envelope)
    requires env in w.sent && Ingest(w.tables, env).1 != RefusedResult
    ensures var v := Next(w, Deliver(env));
            && Allowed(w, Deliver(env)) && env in v.answered
            && v.tables == Ingest(w.tables, env).0 && v.daemons == w.daemons
  {
    hide Ingest;
  }

  lemma ConcludeWorks(w: World, worker: Id, env: Envelope)
    requires Safe(w) && env in w.sent
    requires var d := DaemonOf(w, worker); d.phase == W.Sending && d.pending == Some(env)
    ensures var v := Onward(w, Conclude(worker, env));
            && AllAllowed(w, Conclude(worker, env))
            && DaemonOf(v, worker) == W.FRESH_DAEMON
            && v.tables == Ingest(w.tables, env).0 && Settled(v.tables, env.run)
  {
    StoreSettles(w, env);
    DeliverAnswers(w, env);
    hide Ingest, Safe, Onward, AllAllowed, Next, Allowed;
    ForgetWorks(Next(w, Deliver(env)), worker);
    Unroll(w, Deliver(env), [Local(worker, W.Clear), Local(worker, W.Unlink)]);
    assert Conclude(worker, env) == [Deliver(env)] + [Local(worker, W.Clear), Local(worker, W.Unlink)];
  }

  lemma {:induction false} OnwardIsSafe(w: World, steps: seq<Step>)
    requires Safe(w)
    ensures Safe(Onward(w, steps))
    decreases |steps|
  {
    hide Safe, Next;
    if steps != [] {
      NextKeepsSafe(w, steps[0]);
      OnwardIsSafe(Next(w, steps[0]), steps[1..]);
    }
  }

  /** Whatever has happened, a daemon with an envelope on disk can, by sending it
      once more and hearing the answer, be done with it; if the run was still
      RUNNING, this envelope becomes its result. */
  lemma RetryCannotGetStuck(steps: seq<Step>, worker: Id)
    requires var file := DaemonOf(Reached(steps), worker).file; file.Some? && file.value.pending.Some?
    ensures var w := Reached(steps); var env := DaemonOf(w, worker).file.value.pending.value;
            var v := Onward(Onward(w, Resend(worker)), Conclude(worker, env));
            && AllAllowed(w, Resend(worker)) && AllAllowed(Onward(w, Resend(worker)), Conclude(worker, env))
            && DaemonOf(v, worker) == W.FRESH_DAEMON
            && v.tables == Ingest(w.tables, env).0 && Settled(v.tables, env.run)
  {
    AlwaysSafe(steps);
    var w := Reached(steps);
    hide Safe, Onward, AllAllowed, Next;
    ResendWorks(w, worker);
    OnwardIsSafe(w, Resend(worker));
    ConcludeWorks(Onward(w, Resend(worker)), worker, DaemonOf(w, worker).file.value.pending.value);
  }
}
