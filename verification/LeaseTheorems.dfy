/** What the lease protocol promises, in every reachable state and over every run. */
module LeaseTheorems {
  import opened Common
  import opened LeaseState
  import opened LeaseInvariants

  // --- runs and jobs that have settled --------------------------------------------------------

  predicate Settled(s: State, r: Id) {
    r in s.runs && s.runs[r].state != Leased
  }

  lemma SettledStepwise(s: State, op: Op, now: int, r: Id)
    requires Settled(s, r)
    ensures Settled(Apply(s, op, now), r) && Apply(s, op, now).runs[r] == s.runs[r]
  {
  }

  /** A run leaves RUNNING at most once: what it then says is final. */
  lemma {:induction false} RunSettlesOnce(history: seq<(Op, int)>, n: nat, r: Id)
    requires n <= |history| && Settled(After(history[..n]), r)
    ensures Settled(After(history), r) && After(history).runs[r] == After(history[..n]).runs[r]
  {
    if n == |history| {
      assert history[..n] == history;
    } else {
      var before := history[..|history| - 1];
      assert before[..n] == history[..n];
      RunSettlesOnce(before, n, r);
      SettledStepwise(After(before), history[|history| - 1].0, history[|history| - 1].1, r);
    }
  }

  predicate TerminalState(state: JobState) {
    state.Cancelled? || state.NeedsReconciliation? || (state.Concluded? && state.outcome != WAIT_USER)
  }

  predicate Terminal(s: State, j: Id) {
    j in s.jobs && TerminalState(s.jobs[j].state)
  }

  lemma TerminalReconciled(s: State, now: int, j: Id)
    requires Terminal(s, j) && s.jobs[j].active.None?
    ensures Terminal(Reconcile(s, now), j) && Reconcile(s, now).jobs[j] == s.jobs[j]
  {
  }

  lemma TerminalClaimed(s: State, now: int, op: Op, j: Id)
    requires Terminal(s, j) && op.DoClaim?
    ensures Terminal(Apply(s, op, now), j) && Apply(s, op, now).jobs[j] == s.jobs[j]
  {
  }

  lemma TerminalIngested(s: State, env: Envelope, j: Id)
    requires Terminal(s, j) && s.jobs[j].active.None?
    ensures Terminal(Ingest(s, env).0, j) && Ingest(s, env).0.jobs[j] == s.jobs[j]
  {
    hide ValidEnvelope, EngineMatches, GateAllowed, StoredEnvelope;
  }

  lemma TerminalStepwise(s: State, op: Op, now: int, j: Id)
    requires Inv(s) && Terminal(s, j)
    ensures Terminal(Apply(s, op, now), j) && Apply(s, op, now).jobs[j] == s.jobs[j]
  {
    assert s.jobs[j].active.None?;
    hide Inv, ValidTask, Ingest, ValidRuling, RowOf, Reconcile, TakeClaim, CurrentWaiting, Insertable, HasKey;
    if op.DoReconcile? {
      TerminalReconciled(s, now, j);
    } else if op.DoClaim? {
      TerminalClaimed(s, now, op, j);
    } else if op.DoIngest? {
      TerminalIngested(s, op.env, j);
    }
  }

  /** Terminal job states are never left. */
  lemma {:induction false} TerminalForever(history: seq<(Op, int)>, n: nat, j: Id)
    requires n <= |history| && Terminal(After(history[..n]), j)
    ensures Terminal(After(history), j) && After(history).jobs[j] == After(history[..n]).jobs[j]
  {
    if n == |history| {
      assert history[..n] == history;
    } else {
      var before := history[..|history| - 1];
      assert before[..n] == history[..n];
      TerminalForever(before, n, j);
      AlwaysInv(before);
      TerminalStepwise(After(before), history[|history| - 1].0, history[|history| - 1].1, j);
    }
  }

  // --- attempts -----------------------------------------------------------------------------------

  /** A job to be reconciled by hand never gets a second run. */
  lemma ManualJobRunsOnce(history: seq<(Op, int)>, r: Id, q: Id)
    requires var s := After(history); r in s.runs && q in s.runs && s.runs[r].job == s.runs[q].job
    requires var s := After(history); s.runs[r].job in s.jobs && !s.jobs[s.runs[r].job].task.safeRetry
    ensures r == q
  {
    AlwaysInv(history);
  }

  /** A job that has ever had a run has a parent that is done. */
  lemma DependencyIsDone(history: seq<(Op, int)>, r: Id)
    requires r in After(history).runs
    ensures var s := After(history);
            s.runs[r].job in s.jobs && DependencyDone(s, s.jobs[s.runs[r].job].task)
  {
    AlwaysInv(history);
  }

  function LeasedRunsOf(s: State, j: Id): set<Id> {
    set r | r in s.runs && s.runs[r].job == j && s.runs[r].state == Leased
  }

  lemma OneLease(s: State, j: Id)
    requires RunsBelong(s) && Active(s) && j in s.jobs
    ensures s.jobs[j].state == Running <==> exists r :: LeasedRunsOf(s, j) == {r}
    ensures forall r | r in LeasedRunsOf(s, j) :: s.jobs[j].active == Some(r) && s.runs[r].attempt == s.jobs[j].attempt
  {
    forall r | r in LeasedRunsOf(s, j)
      ensures s.jobs[j].active == Some(r) && s.runs[r].attempt == s.jobs[j].attempt
    {
      assert s.jobs[j].active == Some(r);
      assert IsActive(s, j, s.jobs[j].active.value);
    }
    if s.jobs[j].state == Running {
      var active: Id := s.jobs[j].active.value;
      assert IsActive(s, j, active);
      assert active in LeasedRunsOf(s, j);
      assert LeasedRunsOf(s, j) == {active};
    }
    if r :| LeasedRunsOf(s, j) == {r} {
      assert r in LeasedRunsOf(s, j);
    }
  }

  /** A job is running exactly when it has exactly one leased run, which is its
      active run and carries the current attempt; the attempts of its runs are
      exactly 1..attempt, each once. */
  lemma RunningMeansOneLease(history: seq<(Op, int)>, j: Id)
    requires j in After(history).jobs
    ensures var s := After(history); s.jobs[j].state == Running <==> exists r :: LeasedRunsOf(s, j) == {r}
    ensures var s := After(history); forall r | r in LeasedRunsOf(s, j) ::
              s.jobs[j].active == Some(r) && s.runs[r].attempt == s.jobs[j].attempt
    ensures var s := After(history); forall a: nat :: HasAttempt(s, j, a) <==> 1 <= a <= s.jobs[j].attempt
    ensures var s := After(history);
            forall r, q | r in s.runs && q in s.runs && s.runs[r].job == s.runs[q].job == j
                       && s.runs[r].attempt == s.runs[q].attempt :: r == q
  {
    AlwaysInv(history);
    hide After, Active, Recorded, WaitingJobs, WaitingRuns, Decided, Restrained, Validated, LeasedRunsOf;
    OneLease(After(history), j);
  }

  /** Once the lease check has passed, the active-attempt check of the result
      handler cannot fail. */
  lemma LeaseOwnerIsActive(history: seq<(Op, int)>, env: Envelope)
    requires var s := After(history);
             env.run in s.runs && s.runs[env.run].state == Leased && OwnsLease(s.runs[env.run], env)
    ensures var s := After(history);
            env.job in s.jobs && s.jobs[env.job].active == Some(env.run) && s.jobs[env.job].attempt == env.attempt
  {
    AlwaysInv(history);
    var s := After(history);
    assert IsActive(s, env.job, env.run);
  }

  /** An accepted result delivered again, however much later, is recognised,
      unless gate policy had rewritten it: then it is reported stale. */
  lemma RedeliveryIsRecognised(history: seq<(Op, int)>, env: Envelope, now: int, later: seq<(Op, int)>)
    requires Ingest(After(history), env).1 == Accepted
    ensures var s, t := After(history), After(history + [(DoIngest(env), now)] + later);
            Ingest(t, env) == (t, if WasRewritten(s, env) then StaleResult else Duplicate)
  {
    var s, all := After(history), history + [(DoIngest(env), now)] + later;
    AfterStep(history, DoIngest(env), now);
    assert all[..|history| + 1] == history + [(DoIngest(env), now)];
    StoredState(s, env);
    RunSettlesOnce(all, |history| + 1, env.run);
    hide Ingest, After;
    SettledAnswer(After(all), env, StoredEnvelope(s, env));
  }

  /** Gate policy replaces a renewed request for a gate that has been approved. */
  predicate WasRewritten(s: State, env: Envelope) {
    env.payload.status == WAIT_USER && env.payload.gate.Some? && IsApproved(s, env.job, env.payload.gate.value)
  }

  lemma StoredState(s: State, env: Envelope)
    requires Ingest(s, env).1 == Accepted
    ensures Settled(Ingest(s, env).0, env.run) && ValidEnvelope(env)
    ensures var run := Ingest(s, env).0.runs[env.run];
            run.state == Reported(StoredEnvelope(s, env).payload.status) && run.result == Some(StoredEnvelope(s, env))
    ensures StoredEnvelope(s, env) == env <==> !WasRewritten(s, env)
  {
    hide ValidEnvelope, EngineMatches, GateAllowed, OwnsLease, Rewritten;
    if WasRewritten(s, env) {
      RewrittenDiffers(env, env.payload.gate.value);
    }
  }

  lemma RewrittenDiffers(env: Envelope, gate: Gate)
    requires env.payload.status == WAIT_USER
    ensures Rewritten(env, gate) != env
  {
    assert Rewritten(env, gate).payload.status == BLOCKED;
  }

  lemma SettledAnswer(t: State, env: Envelope, stored: Envelope)
    requires ValidEnvelope(env) && env.run in t.runs
    requires t.runs[env.run].state.Reported? && t.runs[env.run].result == Some(stored)
    ensures Ingest(t, env) == (t, if stored == env then Duplicate else StaleResult)
  {
    hide ValidEnvelope;
  }

  lemma AfterStep(history: seq<(Op, int)>, op: Op, now: int)
    ensures After(history + [(op, now)]) == Apply(After(history), op, now)
  {
    assert (history + [(op, now)])[..|history|] == history;
  }

  // --- human gates --------------------------------------------------------------------------------------

  /** A waiting job waits, through the run of its current attempt, on a declared
      gate with no recorded decision; it can be approved and rejected alike,
      exactly when the gate's name is not empty. */
  lemma WaitingJobCanBeDecided(history: seq<(Op, int)>, j: Id, now: int) returns (r: Id, g: Gate)
    requires Waiting(After(history), j)
    ensures var s := After(history); IsAwaited(s, j, r, g) && Decidable(s, j, r, g, now)
  {
    AlwaysInv(history);
    r, g := AwaitedGate(After(history), j, now);
  }

  /** `j` waits on the declared, undecided gate `g` through its current run `r`. */
  ghost predicate IsAwaited(s: State, j: Id, r: Id, g: Gate) {
    && CurrentWait(s, j, r, g) && g in s.jobs[j].task.gates && (j, g) !in s.decisions
    && CurrentWaiting(s, j) == Some(r)
  }

  /** Any proper ruling on `g` is carried out unless the name is empty, and
      nothing else is. */
  ghost predicate Decidable(s: State, j: Id, r: Id, g: Gate, now: int)
    requires j in s.jobs
  {
    && (forall ruling, source: Option<Id> | ValidRuling(ruling) && (source.None? || source == Some(r)) ::
          Resolve(s, j, g, ruling, source, now).1 ==
            if g == "" then GateError else Resolved(RowOf(ruling, r, s.jobs[j].task, now)))
    && (forall h, ruling, source: Option<Id> ::
          h != g || (source.Some? && source != Some(r)) || !ValidRuling(ruling) ==>
          !Resolve(s, j, h, ruling, source, now).1.Resolved?)
  }

  lemma AwaitedGate(s: State, j: Id, now: int) returns (r: Id, g: Gate)
    requires Inv(s) && Waiting(s, j)
    ensures IsAwaited(s, j, r, g) && Decidable(s, j, r, g, now)
  {
    CurrentIsLatest(s, j);
    r, g := WaitAndGate(s, j).0, WaitAndGate(s, j).1;
    assert CurrentWaiting(s, j).value == r by {
      var c := CurrentWaiting(s, j).value;
      assert s.runs[c].job == j && s.runs[c].attempt == s.jobs[j].attempt;
    }
    assert WellRecorded(s, r);
    hide Inv, ValidRuling, Strip;
  }

  // --- two histories that end badly ------------------------------------------------------------------------

  function GateTask(gate: Gate): Task { Task(true, Some(1), None, [gate], None, [], true, None, None, "linux", {}) }

  const ANY_WORKER: Descriptor := Descriptor("linux", {}, 1)

  function Waits(run: Id, attempt: int, gate: Gate): Envelope {
    Envelope(1, run, attempt, 5, 8, 9, 0, false, Some("native"), NO_ARTIFACTS, Payload(WAIT_USER, "", Some(gate), []))
  }

  function Claimable(gate: Gate): seq<(Op, int)> { [(DoEnqueue(GateTask(gate), 0), 0), (DoRegister(5, ANY_WORKER), 0)] }

  function Asked(gate: Gate): seq<(Op, int)> {
    Claimable(gate) + [(DoClaim(5, 7, 8, 9), 0)] + [(DoIngest(Waits(7, 1, gate)), 0)]
  }

  function QueuedTables(gate: Gate): State {
    State(map[1 := Job(GateTask(gate), Queued, 0, None, 0)], map[], map[], map[5 := ANY_WORKER])
  }

  lemma ClaimableTables(gate: Gate)
    ensures After(Claimable(gate)) == QueuedTables(gate)
  {
    var task := GateTask(gate);
    assert Enqueue(EMPTY_TABLES, task, 0, 0).0.jobs == QueuedTables(gate).jobs;
    assert Apply(Apply(EMPTY_TABLES, DoEnqueue(task, 0), 0), DoRegister(5, ANY_WORKER), 0) == QueuedTables(gate);
    hide Apply;
    AfterStep([], DoEnqueue(task, 0), 0);
    AfterStep([(DoEnqueue(task, 0), 0)], DoRegister(5, ANY_WORKER), 0);
    assert Claimable(gate) == [] + [(DoEnqueue(task, 0), 0)] + [(DoRegister(5, ANY_WORKER), 0)];
  }

  /** The only job, if it is queued and nothing runs, is the one claimed. */
  lemma OnlyJobClaimed(s: State, gate: Gate, run: Id)
    requires s.jobs.Keys == {1} && s.jobs[1].task == GateTask(gate) && s.jobs[1].state == Queued
    requires s.workers == map[5 := ANY_WORKER] && LiveRuns(s, 5, 0) == {} && run !in s.runs
    ensures Apply(s, DoClaim(5, run, 8, 9), 0) == StartRun(s, 5, 1, 0, run, 8, 9)
  {
    assert IsFirst(s, 5, 1);
    assert Pick(s, 5) == Some(1);
  }

  lemma AskedTables(gate: Gate)
    ensures After(Asked(gate)) == Store(StartRun(QueuedTables(gate), 5, 1, 0, 7, 8, 9), 7, Waits(7, 1, gate))
  {
    ClaimedTables(gate);
    AfterStep(Claimable(gate) + [(DoClaim(5, 7, 8, 9), 0)], DoIngest(Waits(7, 1, gate)), 0);
    hide After, Claimable;
  }

  lemma ClaimedTables(gate: Gate)
    ensures After(Claimable(gate) + [(DoClaim(5, 7, 8, 9), 0)]) == StartRun(QueuedTables(gate), 5, 1, 0, 7, 8, 9)
  {
    hide Claimable;
    ClaimableTables(gate);
    OnlyJobClaimed(QueuedTables(gate), gate, 7);
    AfterStep(Claimable(gate), DoClaim(5, 7, 8, 9), 0);
  }

  /** A task may declare the empty gate, a client may report it, and then no
      decision is accepted: the job is stuck. */
  lemma EmptyGateIsStuck(gate: Gate, ruling: Ruling, source: Option<Id>, now: int)
    ensures Waiting(After(Asked("")), 1)
    ensures !Resolve(After(Asked("")), 1, gate, ruling, source, now).1.Resolved?
  {
    AskedTables("");
    var r, g := WaitingJobCanBeDecided(Asked(""), 1, now);
  }

  const CONSENT: Ruling := Ruling(Approved, "a", None)

  const ASKED_TWICE: seq<(Op, int)> := Asked("g") + [(APPROVING, 0)] + [(DoClaim(5, 17, 8, 9), 0)]

  /** A run that asks again for an approved gate is accepted, and the same result
      delivered once more is reported stale, now and for ever. */
  lemma RewrittenResultIsStale(later: seq<(Op, int)>)
    ensures Ingest(After(ASKED_TWICE), Waits(17, 2, "g")).1 == Accepted
    ensures Ingest(After(ASKED_TWICE + [(DoIngest(Waits(17, 2, "g")), 0)] + later), Waits(17, 2, "g")).1 == StaleResult
  {
    AskedTwiceAccepted();
    RedeliveryIsRecognised(ASKED_TWICE, Waits(17, 2, "g"), 0, later);
  }

  const APPROVING: Op := DoResolve(1, "g", CONSENT, None)

  lemma ConsentIsValid()
    ensures ValidRuling(CONSENT)
  {
    assert Strip("a") == "a";
  }

  lemma RulingIsCarriedOut(s: State, j: Id, r: Id, g: Gate, ruling: Ruling, now: int)
    requires IsAwaited(s, j, r, g) && Decidable(s, j, r, g, now) && g != "" && ValidRuling(ruling)
    ensures Apply(s, DoResolve(j, g, ruling, None), now) == Decide(s, j, g, RowOf(ruling, r, s.jobs[j].task, now))
  {
    hide IsAwaited, ValidRuling, Strip, IsCurrentWaiting, GateDisposition;
    assert Resolve(s, j, g, ruling, None, now).1 == Resolved(RowOf(ruling, r, s.jobs[j].task, now));
  }

  lemma AskedWaits(gate: Gate, r: Id, g: Gate)
    ensures Waiting(After(Asked(gate)), 1)
    ensures IsAwaited(After(Asked(gate)), 1, r, g) ==>
            r == 7 && g == gate && After(Asked(gate)).jobs[1].task == GateTask(gate)
  {
    AskedTables(gate);
    hide After, Asked, CurrentWaiting;
  }

  lemma ConsentIsGiven()
    ensures Waiting(After(Asked("g")), 1)
    ensures After(Asked("g") + [(APPROVING, 0)]) ==
            Decide(After(Asked("g")), 1, "g", RowOf(CONSENT, 7, GateTask("g"), 0))
  {
    hide After, Asked, GateTask, RowOf, Apply, IsAwaited, Decidable, Decide, Strip, ValidRuling;
    AskedWaits("g", 7, "g");
    var r, g := WaitingJobCanBeDecided(Asked("g"), 1, 0);
    AskedWaits("g", r, g);
    ConsentIsValid();
    RulingIsCarriedOut(After(Asked("g")), 1, r, g, CONSENT, 0);
    AfterStep(Asked("g"), APPROVING, 0);
  }

  lemma AskedTwiceTables()
    ensures Waiting(After(Asked("g")), 1)
    ensures After(ASKED_TWICE) ==
              StartRun(Decide(After(Asked("g")), 1, "g", RowOf(CONSENT, 7, GateTask("g"), 0)), 5, 1, 0, 17, 8, 9)
  {
    ConsentIsGiven();
    AskedTables("g");
    AfterStep(Asked("g") + [(APPROVING, 0)], DoClaim(5, 17, 8, 9), 0);
    hide After, Asked;
    var t := Decide(After(Asked("g")), 1, "g", RowOf(CONSENT, 7, GateTask("g"), 0));
    OnlyJobClaimed(t, "g", 17);
  }

  lemma AskedTwiceAccepted()
    ensures Ingest(After(ASKED_TWICE), Waits(17, 2, "g")).1 == Accepted
    ensures WasRewritten(After(ASKED_TWICE), Waits(17, 2, "g"))
  {
    AskedTables("g");
    AskedTwiceTables();
    hide After, Asked, Strip;
  }

  /** The waiting runs of one job name different gates. */
  lemma WaitsAreDistinct(history: seq<(Op, int)>, r: Id, q: Id, g: Gate)
    requires var s := After(history); WaitsFor(s, r, g) && WaitsFor(s, q, g) && s.runs[r].job == s.runs[q].job
    ensures r == q
  {
    AlwaysInv(history);
  }

  ghost function WaitsOf(s: State, j: Id): set<Id> {
    set r | r in s.runs && s.runs[r].job == j && s.runs[r].state == Reported(WAIT_USER)
  }

  /** So a job waits at most once for each gate it declares. */
  lemma WaitsAreFew(history: seq<(Op, int)>, j: Id)
    requires j in After(history).jobs
    ensures var s := After(history); |WaitsOf(s, j)| <= |set g | g in s.jobs[j].task.gates|
  {
    AlwaysInv(history);
    var s := After(history);
    CountWaits(s, j, WaitsOf(s, j), set g | g in s.jobs[j].task.gates);
  }

  lemma {:induction false} CountWaits(s: State, j: Id, waits: set<Id>, gates: set<Gate>)
    requires Inv(s) && waits <= WaitsOf(s, j)
    requires forall r, g | r in waits && WaitsFor(s, r, g) :: g in gates
    ensures |waits| <= |gates|
    decreases waits
  {
    if waits != {} {
      var r := Member(waits);
      assert WellRecorded(s, r);
      var g := s.runs[r].result.value.payload.gate.value;
      assert WaitsFor(s, r, g);
      forall q, h | q in waits - {r} && WaitsFor(s, q, h)
        ensures h in gates - {g}
      {
        assert q in waits;
      }
      CountWaits(s, j, waits - {r}, gates - {g});
    }
  }

  // --- leases --------------------------------------------------------------------------------------------

  ghost predicate Clocked(history: seq<(Op, int)>) {
    forall i, k | 0 <= i < k < |history| :: history[i].1 <= history[k].1
  }

  /** At every instant a leased run can be renewed by its holder or reclaimed,
      and never both. */
  lemma RenewableOrReclaimable(s: State, r: Id, now: int)
    requires r in s.runs && s.runs[r].state == Leased
    ensures Renewable(s, r, s.runs[r].lease, s.runs[r].token, now) <==> !Reclaimable(s, r, now)
    ensures forall lease, token :: Renewable(s, r, lease, token, now) ==> !Reclaimable(s, r, now)
  {
  }

  /** The lease of `r` has run out, whatever became of the run since. */
  predicate Lapsed(s: State, r: Id, now: int) {
    r in s.runs && (s.runs[r].state == Leased ==> s.runs[r].expires < now)
  }

  lemma LapsedStepwise(s: State, op: Op, now: int, r: Id)
    requires Lapsed(s, r, now)
    ensures Lapsed(Apply(s, op, now), r, now)
  {
  }

  /** Once a lease can be reclaimed it can never be renewed again. */
  lemma {:induction false} LapsedForever(history: seq<(Op, int)>, n: nat, r: Id, earlier: int, now: int)
    requires n <= |history| && Reclaimable(After(history[..n]), r, earlier)
    requires forall i | n <= i < |history| :: earlier <= history[i].1 <= now
    requires earlier <= now && Clocked(history)
    ensures Lapsed(After(history), r, now)
    ensures forall lease, token :: !Renewable(After(history), r, lease, token, now)
  {
    if n == |history| {
      assert history[..n] == history;
    } else {
      var before, last := history[..|history| - 1], history[|history| - 1];
      assert before[..n] == history[..n];
      LapsedForever(before, n, r, earlier, last.1);
      LapsedStepwise(After(before), last.0, last.1, r);
    }
  }

  // --- how much a worker carries -----------------------------------------------------------------------

  function Capacity(d: Descriptor): nat {
    if d.maxConcurrent > 0 then d.maxConcurrent else 0
  }

  /** Every registration of `worker` in the history is with descriptor `d`. */
  ghost predicate RegisteredAs(history: seq<(Op, int)>, worker: Id, d: Descriptor) {
    forall i | 0 <= i < |history| && history[i].0.DoRegister? && history[i].0.worker == worker ::
        history[i].0.descriptor == d
  }

  lemma {:induction false} DescriptorStays(history: seq<(Op, int)>, worker: Id, d: Descriptor)
    requires RegisteredAs(history, worker, d)
    ensures worker in After(history).workers ==> After(history).workers[worker] == d
  {
    if history != [] {
      var before, last := history[..|history| - 1], history[|history| - 1];
      forall i | 0 <= i < |before| && before[i].0.DoRegister? && before[i].0.worker == worker
        ensures before[i].0.descriptor == d
      {
        assert history[i] == before[i];
      }
      DescriptorStays(before, worker, d);
      WorkersStepwise(After(before), last.0, last.1, worker);
    }
  }

  lemma WorkersStepwise(s: State, op: Op, now: int, worker: Id)
    ensures var t := Apply(s, op, now);
            worker in t.workers ==> (if op.DoRegister? && op.worker == worker then t.workers[worker] == op.descriptor
                                     else worker in s.workers && t.workers[worker] == s.workers[worker])
  {
  }

  lemma LiveStepwise(s: State, op: Op, now: int, worker: Id, d: Descriptor)
    requires worker in s.workers ==> s.workers[worker] == d
    requires |LiveRuns(s, worker, now)| <= Capacity(d)
    ensures |LiveRuns(Apply(s, op, now), worker, now)| <= Capacity(d)
  {
    var t := Apply(s, op, now);
    var live := LiveRuns(t, worker, now);
    if op.DoClaim? && op.worker == worker && t != s {
      assert live <= LiveRuns(s, worker, now) + {op.run};
      Fewer(live, LiveRuns(s, worker, now) + {op.run});
    } else {
      assert live <= LiveRuns(s, worker, now);
      Fewer(live, LiveRuns(s, worker, now));
    }
  }

  lemma StillLive(s: State, worker: Id, earlier: int, now: int)
    requires earlier <= now
    ensures |LiveRuns(s, worker, now)| <= |LiveRuns(s, worker, earlier)|
  {
    forall r | r in LiveRuns(s, worker, now)
      ensures r in LiveRuns(s, worker, earlier)
    {
      assert LiveLease(s.runs[r], worker, earlier);
    }
    Fewer(LiveRuns(s, worker, now), LiveRuns(s, worker, earlier));
  }

  /** With a clock that never goes back and an unchanged descriptor, a worker
      never holds more live leases than it may. */
  lemma {:induction false} NeverOverCapacity(history: seq<(Op, int)>, worker: Id, d: Descriptor, now: int)
    requires Clocked(history) && RegisteredAs(history, worker, d)
    requires history != [] ==> history[|history| - 1].1 <= now
    ensures |LiveRuns(After(history), worker, now)| <= Capacity(d)
  {
    if history == [] {
      assert LiveRuns(EMPTY_TABLES, worker, now) == {};
    } else {
      var before, last := history[..|history| - 1], history[|history| - 1];
      assert forall i | 0 <= i < |before| :: before[i] == history[i];
      NeverOverCapacity(before, worker, d, last.1);
      DescriptorStays(before, worker, d);
      LiveStepwise(After(before), last.0, last.1, worker, d);
      StillLive(After(history), worker, last.1, now);
    }
  }

  // --- what a claim takes ----------------------------------------------------------------------------------

  lemma {:induction false} FirstExists(s: State, jobs: set<Id>) returns (first: Id)
    requires jobs != {} && jobs <= s.jobs.Keys
    ensures first in jobs && forall k | k in jobs :: Before(s, first, k)
    decreases jobs
  {
    first := Member(jobs);
    if jobs != {first} {
      var rest := FirstExists(s, jobs - {first});
      var least := if Before(s, first, rest) then first else rest;
      forall k | k in jobs
        ensures Before(s, least, k)
      {
        assert k == first || k in jobs - {first};
      }
      first := least;
    }
  }

  lemma LiveAre(s: State, worker: Id, now: int)
    ensures LiveRuns(s, worker, now) ==
              set r | r in s.runs && s.runs[r].worker == worker && s.runs[r].state == Leased && now <= s.runs[r].expires
  {
    var live := set r | r in s.runs && s.runs[r].worker == worker && s.runs[r].state == Leased
        && now <= s.runs[r].expires;
    assert forall r :: r in LiveRuns(s, worker, now) <==> r in live;
  }

  /** A queued job that waits for no other and that the worker is fit for. */
  ghost predicate MayRun(s: State, worker: Id, j: Id) {
    && worker in s.workers && j in s.jobs && s.jobs[j].state == Queued
    && var task, d := s.jobs[j].task, s.workers[worker];
       && (task.dependsOn.Some? ==>
             task.dependsOn.value in s.jobs && s.jobs[task.dependsOn.value].state == Concluded(DONE))
       && (task.worker == None || task.worker == Some(worker))
       && task.platform == d.platform && task.capabilities <= d.capabilities
  }

  ghost predicate Sooner(s: State, j: Id, k: Id)
    requires j in s.jobs && k in s.jobs
  {
    s.jobs[j].created < s.jobs[k].created || (s.jobs[j].created == s.jobs[k].created && j < k)
  }

  /** A worker below its limit is handed the oldest job that it may run, and
      goes away empty only when there is none. */
  lemma ClaimTakesOldest(s: State, worker: Id, now: int, run: Id, lease: Id, token: Id)
    requires worker in s.workers && run !in s.runs
    ensures var (t, outcome) := TakeClaim(s, worker, now, run, lease, token);
            var held :=
              set r | r in s.runs && s.runs[r].worker == worker && s.runs[r].state == Leased
                      && now <= s.runs[r].expires;
            if |held| >= s.workers[worker].maxConcurrent || !exists j :: MayRun(s, worker, j)
            then outcome == NothingToClaim && t == s
            else
              && outcome.Claimed? && MayRun(s, worker, outcome.claim.job)
              && forall k | MayRun(s, worker, k) && k != outcome.claim.job :: Sooner(s, outcome.claim.job, k)
  {
    LiveAre(s, worker, now);
    forall j
      ensures MayRun(s, worker, j) <==> Eligible(s, worker, j)
    {
    }
    hide MayRun, Eligible, LiveRuns;
    if j :| Eligible(s, worker, j) {
      FirstEligible(s, worker, j);
    }
  }

  lemma FirstEligible(s: State, worker: Id, j: Id)
    requires Eligible(s, worker, j)
    ensures exists first :: IsFirst(s, worker, first)
  {
    var jobs := set k | k in s.jobs && Eligible(s, worker, k);
    assert j in jobs;
    var first := FirstExists(s, jobs);
    assert IsFirst(s, worker, first);
  }
}
