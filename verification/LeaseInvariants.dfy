/** What every operation of the controller keeps, and what follows for every
    history of operations. */
module LeaseInvariants {
  import opened Common
  import opened LeaseState

  // --- the invariant -----------------------------------------------------------------------

  ghost predicate HasAttempt(s: State, j: Id, attempt: nat) {
    exists r :: r in s.runs && s.runs[r].job == j && s.runs[r].attempt == attempt
  }

  ghost predicate RunsBelong(s: State) {
    forall r | r in s.runs :: s.runs[r].job in s.jobs && 1 <= s.runs[r].attempt <= s.jobs[s.runs[r].job].attempt
  }

  ghost predicate AttemptsDistinct(s: State) {
    forall r, q | r in s.runs && q in s.runs && s.runs[r].job == s.runs[q].job
        && s.runs[r].attempt == s.runs[q].attempt :: r == q
  }

  ghost predicate AttemptsComplete(s: State) {
    forall j, a: nat | j in s.jobs && 1 <= a <= s.jobs[j].attempt :: HasAttempt(s, j, a)
  }

  /** Runs belong to jobs and are numbered 1..attempt without gaps or repeats. */
  ghost predicate Numbered(s: State) {
    RunsBelong(s) && AttemptsDistinct(s) && AttemptsComplete(s)
  }

  ghost predicate IsActive(s: State, j: Id, r: Id)
    requires j in s.jobs
  {
    r in s.runs && s.runs[r].job == j && s.runs[r].state == Leased && s.runs[r].attempt == s.jobs[j].attempt
  }

  /** A job is running exactly when it has a leased run, which is then the only
      one, is its active run and carries its current attempt. */
  ghost predicate Active(s: State)
    requires RunsBelong(s)
  {
    && (forall j | j in s.jobs :: s.jobs[j].state == Running <==> s.jobs[j].active.Some?)
    && (forall j | j in s.jobs && s.jobs[j].active.Some? :: IsActive(s, j, s.jobs[j].active.value))
    && (forall r | r in s.runs && s.runs[r].state == Leased :: s.jobs[s.runs[r].job].active == Some(r))
  }

  ghost predicate WellRecorded(s: State, r: Id)
    requires r in s.runs && s.runs[r].job in s.jobs
  {
    var run := s.runs[r];
    && (run.state.Reported? <==> run.result.Some?)
    && (run.result.Some? ==>
          && run.state == Reported(run.result.value.payload.status)
          && GateAllowed(s.jobs[run.job].task, run.result.value.payload))
  }

  /** Reported runs carry the result that decided their state. */
  ghost predicate Recorded(s: State)
    requires RunsBelong(s)
  {
    forall r | r in s.runs :: WellRecorded(s, r)
  }

  /** `r` reported that it waits for gate `g`. */
  ghost predicate WaitsFor(s: State, r: Id, g: Gate) {
    r in s.runs && s.runs[r].state == Reported(WAIT_USER) && s.runs[r].result.Some?
    && s.runs[r].result.value.payload.gate == Some(g)
  }

  /** `r` is the run of the current attempt of `j` and waits for `g`. */
  ghost predicate CurrentWait(s: State, j: Id, r: Id, g: Gate) {
    WaitsFor(s, r, g) && s.runs[r].job == j && j in s.jobs && s.runs[r].attempt == s.jobs[j].attempt
  }

  predicate Waiting(s: State, j: Id) {
    j in s.jobs && s.jobs[j].state == Concluded(WAIT_USER)
  }

  /** A waiting job waits on the gate of its latest run, which is undecided. */
  ghost predicate WaitingJobs(s: State) {
    forall j | Waiting(s, j) :: exists r, g :: CurrentWait(s, j, r, g) && (j, g) !in s.decisions
  }

  /** Every other waiting run has been decided, each gate through one run. */
  ghost predicate WaitingRuns(s: State) {
    forall r, g | WaitsFor(s, r, g) ::
      || (Waiting(s, s.runs[r].job) && CurrentWait(s, s.runs[r].job, r, g))
      || ((s.runs[r].job, g) in s.decisions && s.decisions[(s.runs[r].job, g)].sourceRun == r)
  }

  ghost predicate WellDecided(s: State, k: (Id, Gate))
    requires k in s.decisions
  {
    && k.0 in s.jobs
    && k.1 in s.jobs[k.0].task.gates && k.1 != ""
    && s.decisions[k].disposition == GateDisposition(s.jobs[k.0].task, s.decisions[k].decision)
    && (s.decisions[k].decision == Rejected ==> s.jobs[k.0].state == Cancelled)
  }

  /** A decision has settled its job as the decision says. */
  ghost predicate Decided(s: State) {
    forall k | k in s.decisions :: WellDecided(s, k)
  }

  /** A job to be reconciled by hand runs at most once; a job that has ever run
      had its dependency done. */
  ghost predicate Restrained(s: State) {
    && (forall j | j in s.jobs && !s.jobs[j].task.safeRetry ::
          s.jobs[j].attempt <= 1 && (s.jobs[j].state == Queued ==> s.jobs[j].attempt == 0))
    && (forall j | j in s.jobs && s.jobs[j].attempt > 0 :: DependencyDone(s, s.jobs[j].task))
  }

  /** Every queued task has passed the validator. */
  ghost predicate Validated(s: State) {
    forall j | j in s.jobs :: ValidTask(s.jobs[j].task)
  }

  ghost predicate Inv(s: State) {
    && Numbered(s) && Active(s) && Recorded(s)
    && WaitingJobs(s) && WaitingRuns(s) && Decided(s) && Restrained(s) && Validated(s)
  }

  // --- frames: what operations that touch little keep --------------------------------------------

  /** The same runs, for the same jobs, with the same attempts. */
  ghost predicate SameRuns(s: State, t: State) {
    && t.runs.Keys == s.runs.Keys
    && (forall r | r in s.runs :: t.runs[r].job == s.runs[r].job && t.runs[r].attempt == s.runs[r].attempt)
    && SameJobs(s, t)
  }

  /** No job lost or renumbered; new ones are valid and have not run. */
  ghost predicate SameJobs(s: State, t: State) {
    && (forall j | j in s.jobs :: j in t.jobs && t.jobs[j].task == s.jobs[j].task
         && t.jobs[j].attempt == s.jobs[j].attempt)
    && (forall j | j in t.jobs && j !in s.jobs :: t.jobs[j].attempt == 0 && ValidTask(t.jobs[j].task))
  }

  lemma NumberedFrame(s: State, t: State)
    requires Numbered(s) && SameRuns(s, t)
    ensures Numbered(t)
  {
    hide ValidTask;
    forall j, a: nat | j in t.jobs && 1 <= a <= t.jobs[j].attempt
      ensures HasAttempt(t, j, a)
    {
      assert HasAttempt(s, j, a);
      var r :| r in s.runs && s.runs[r].job == j && s.runs[r].attempt == a;
      assert r in t.runs && t.runs[r].job == j && t.runs[r].attempt == a;
    }
  }

  /** Same reports, same decisions, same waiting jobs. */
  ghost predicate SameWaits(s: State, t: State) {
    && SameRuns(s, t)
    && (forall r | r in s.runs :: t.runs[r].result == s.runs[r].result
                               && (t.runs[r].state == Reported(WAIT_USER) <==> s.runs[r].state == Reported(WAIT_USER)))
    && t.decisions == s.decisions
    && (forall j :: Waiting(t, j) <==> Waiting(s, j))
  }

  lemma WaitsFrame(s: State, t: State)
    requires WaitingJobs(s) && WaitingRuns(s) && SameWaits(s, t) && RunsBelong(s)
    ensures WaitingJobs(t) && WaitingRuns(t)
  {
    forall j | Waiting(t, j)
      ensures exists r, g :: CurrentWait(t, j, r, g) && (j, g) !in t.decisions
    {
      assert Waiting(s, j);
      var r, g :| CurrentWait(s, j, r, g) && (j, g) !in s.decisions;
      assert CurrentWait(t, j, r, g);
    }
    forall r, g | WaitsFor(t, r, g)
      ensures (Waiting(t, t.runs[r].job) && CurrentWait(t, t.runs[r].job, r, g))
           || ((t.runs[r].job, g) in t.decisions && t.decisions[(t.runs[r].job, g)].sourceRun == r)
    {
      assert WaitsFor(s, r, g);
    }
  }

  lemma DecidedFrame(s: State, t: State)
    requires Decided(s) && SameJobs(s, t) && t.decisions == s.decisions
    requires forall j | j in s.jobs && s.jobs[j].state == Cancelled :: t.jobs[j].state == Cancelled
    ensures Decided(t)
  {
    forall k | k in t.decisions
      ensures WellDecided(t, k)
    {
      assert WellDecided(s, k);
      var j := k.0;
      assert j in s.jobs;
      assert j in t.jobs;
      assert t.jobs[j].task == s.jobs[j].task;
    }
  }

  /** Reported runs keep their state and result; others stay unreported. */
  ghost predicate SameReports(s: State, t: State) {
    forall r | r in s.runs && r in t.runs ::
      && t.runs[r].result == s.runs[r].result
      && (t.runs[r].state == s.runs[r].state || (!t.runs[r].state.Reported? && !s.runs[r].state.Reported?))
  }

  lemma RecordedFrame(s: State, t: State)
    requires RunsBelong(s) && RunsBelong(t) && Recorded(s) && SameRuns(s, t) && SameReports(s, t)
    ensures Recorded(t)
  {
    forall r | r in t.runs
      ensures WellRecorded(t, r)
    {
      assert WellRecorded(s, r);
      var j := s.runs[r].job;
      assert j in t.jobs && t.jobs[j].task == s.jobs[j].task;
    }
  }

  /** Done jobs stay done, so dependencies that were done still are. */
  lemma RestrainedFrame(s: State, t: State)
    requires Restrained(s) && SameJobs(s, t)
    requires forall j | j in s.jobs && s.jobs[j].state == Concluded(DONE) :: t.jobs[j].state == Concluded(DONE)
    requires forall j | j in s.jobs && t.jobs[j].state == Queued && !s.jobs[j].task.safeRetry ::
             s.jobs[j].state == Queued
    ensures Restrained(t)
  {
    forall j | j in t.jobs && t.jobs[j].attempt > 0
      ensures DependencyDone(t, t.jobs[j].task)
    {
      assert j in s.jobs && DependencyDone(s, s.jobs[j].task);
      if s.jobs[j].task.dependsOn.Some? {
        var parent: Id := s.jobs[j].task.dependsOn.value;
        assert parent in s.jobs;
        assert parent in t.jobs;
      }
    }
  }

  /** The same jobs running, through the same leased runs. */
  ghost predicate SameActivity(s: State, t: State) {
    && SameRuns(s, t)
    && (forall r | r in s.runs :: t.runs[r].state == Leased <==> s.runs[r].state == Leased)
    && (forall j | j in s.jobs :: t.jobs[j].active == s.jobs[j].active
         && (t.jobs[j].state == Running <==> s.jobs[j].state == Running))
    && (forall j | j in t.jobs && j !in s.jobs :: t.jobs[j].active.None? && t.jobs[j].state != Running)
  }

  lemma ActiveFrame(s: State, t: State)
    requires RunsBelong(s) && RunsBelong(t) && Active(s) && SameActivity(s, t)
    ensures Active(t)
  {
    forall j | j in t.jobs && t.jobs[j].active.Some?
      ensures IsActive(t, j, t.jobs[j].active.value)
    {
      assert j in s.jobs && IsActive(s, j, s.jobs[j].active.value);
    }
    forall r | r in t.runs && t.runs[r].state == Leased
      ensures t.jobs[t.runs[r].job].active == Some(r)
    {
      var j := s.runs[r].job;
      assert j in s.jobs && s.jobs[j].active == Some(r);
    }
  }

  /** An operation that changes nothing but leases, descriptors or new jobs. */
  lemma QuietKeepsInv(s: State, t: State)
    requires Inv(s) && SameRuns(s, t) && SameActivity(s, t) && SameReports(s, t) && SameWaits(s, t)
    requires forall j | j in s.jobs :: t.jobs[j].state == s.jobs[j].state
    ensures Inv(t)
  {
    hide RunsBelong, AttemptsDistinct, AttemptsComplete, Active, Recorded, WaitingJobs, WaitingRuns, Decided,
      Restrained, ValidTask;
    NumberedFrame(s, t);
    ActiveFrame(s, t);
    QuietReportsKeep(s, t);
  }

  // --- every operation keeps the invariant ---------------------------------------------------------

  lemma EnqueueKeepsInv(s: State, task: Task, drawn: Id, now: int)
    requires Inv(s)
    ensures Inv(Enqueue(s, task, drawn, now).0)
  {
    hide Inv;
    var t := Enqueue(s, task, drawn, now).0;
    if t != s {
      assert SameRuns(s, t) && SameActivity(s, t) && SameReports(s, t) && SameWaits(s, t);
      QuietKeepsInv(s, t);
    }
  }

  lemma StartRunNumbered(s: State, worker: Id, j: Id, now: int, run: Id, lease: Id, token: Id)
    requires Numbered(s) && j in s.jobs && run !in s.runs
    ensures Numbered(StartRun(s, worker, j, now, run, lease, token))
  {
    var t := StartRun(s, worker, j, now, run, lease, token);
    forall k, a: nat | k in t.jobs && 1 <= a <= t.jobs[k].attempt
      ensures HasAttempt(t, k, a)
    {
      if k == j && a == t.jobs[k].attempt {
        assert run in t.runs && t.runs[run].job == k && t.runs[run].attempt == a;
      } else {
        assert HasAttempt(s, k, a);
        var r :| r in s.runs && s.runs[r].job == k && s.runs[r].attempt == a;
        assert r in t.runs && t.runs[r].job == k && t.runs[r].attempt == a;
      }
    }
  }

  lemma StartRunWaits(s: State, worker: Id, j: Id, now: int, run: Id, lease: Id, token: Id)
    requires Inv(s) && j in s.jobs && s.jobs[j].state == Queued && run !in s.runs
    ensures var t := StartRun(s, worker, j, now, run, lease, token); WaitingJobs(t) && WaitingRuns(t)
  {
    var t := StartRun(s, worker, j, now, run, lease, token);
    forall k | Waiting(t, k)
      ensures exists r, g :: CurrentWait(t, k, r, g) && (k, g) !in t.decisions
    {
      assert Waiting(s, k);
      var r, g :| CurrentWait(s, k, r, g) && (k, g) !in s.decisions;
      assert CurrentWait(t, k, r, g);
    }
    forall r, g | WaitsFor(t, r, g)
      ensures (Waiting(t, t.runs[r].job) && CurrentWait(t, t.runs[r].job, r, g))
           || ((t.runs[r].job, g) in t.decisions && t.decisions[(t.runs[r].job, g)].sourceRun == r)
    {
      assert WaitsFor(s, r, g);
    }
  }

  lemma StartRunRest(s: State, worker: Id, j: Id, now: int, run: Id, lease: Id, token: Id)
    requires Inv(s) && j in s.jobs && s.jobs[j].state == Queued && run !in s.runs && DependencyDone(s, s.jobs[j].task)
    requires Numbered(StartRun(s, worker, j, now, run, lease, token))
    ensures var t := StartRun(s, worker, j, now, run, lease, token);
            Recorded(t) && Decided(t) && Restrained(t) && Validated(t)
  {
    hide ValidTask;
    var t := StartRun(s, worker, j, now, run, lease, token);
    forall r | r in t.runs
      ensures WellRecorded(t, r)
    {
      assert r != run ==> WellRecorded(s, r);
    }
    forall k | k in t.decisions
      ensures WellDecided(t, k)
    {
      assert WellDecided(s, k);
    }
    forall k | k in t.jobs && t.jobs[k].attempt > 0
      ensures DependencyDone(t, t.jobs[k].task)
    {
      assert DependencyDone(s, s.jobs[k].task);
    }
  }

  lemma StartRunActive(s: State, worker: Id, j: Id, now: int, run: Id, lease: Id, token: Id)
    requires Inv(s) && j in s.jobs && s.jobs[j].state == Queued && run !in s.runs
    requires Numbered(StartRun(s, worker, j, now, run, lease, token))
    ensures Active(StartRun(s, worker, j, now, run, lease, token))
  {
    var t := StartRun(s, worker, j, now, run, lease, token);
    forall k | k in t.jobs && t.jobs[k].active.Some?
      ensures IsActive(t, k, t.jobs[k].active.value)
    {
      assert k != j ==> IsActive(s, k, s.jobs[k].active.value);
    }
  }

  lemma ClaimKeepsInv(s: State, worker: Id, now: int, run: Id, lease: Id, token: Id)
    requires Inv(s)
    ensures Inv(TakeClaim(s, worker, now, run, lease, token).0)
  {
    var t := TakeClaim(s, worker, now, run, lease, token).0;
    if t != s {
      var j := Pick(s, worker).value;
      StartRunNumbered(s, worker, j, now, run, lease, token);
      StartRunActive(s, worker, j, now, run, lease, token);
      StartRunWaits(s, worker, j, now, run, lease, token);
      StartRunRest(s, worker, j, now, run, lease, token);
    }
  }

  lemma HeartbeatKeepsInv(s: State, run: Id, lease: Id, token: Id, now: int)
    requires Inv(s)
    ensures Inv(Heartbeat(s, run, lease, token, now).0)
  {
    hide Inv, ValidTask;
    var t := Heartbeat(s, run, lease, token, now).0;
    assert SameRuns(s, t) && SameActivity(s, t) && SameReports(s, t) && SameWaits(s, t);
    QuietKeepsInv(s, t);
  }

  lemma RegisterKeepsInv(s: State, worker: Id, d: Descriptor)
    requires Inv(s)
    ensures Inv(Register(s, worker, d))
  {
    hide Inv, ValidTask;
    var t := Register(s, worker, d);
    assert SameRuns(s, t) && SameActivity(s, t) && SameReports(s, t) && SameWaits(s, t);
    QuietKeepsInv(s, t);
  }

  lemma ReconcileActive(s: State, now: int)
    requires RunsBelong(s) && Active(s) && RunsBelong(Reconcile(s, now))
    ensures Active(Reconcile(s, now))
  {
    var t := Reconcile(s, now);
    forall j | j in t.jobs
      ensures t.jobs[j].state == Running <==> t.jobs[j].active.Some?
      ensures t.jobs[j].active.Some? ==> IsActive(t, j, t.jobs[j].active.value)
    {
      if s.jobs[j].active.Some? {
        assert IsActive(s, j, s.jobs[j].active.value);
      }
    }
    forall r | r in t.runs && t.runs[r].state == Leased
      ensures t.jobs[t.runs[r].job].active == Some(r)
    {
      var j := s.runs[r].job;
      assert s.runs[r].state == Leased && !Reclaimable(s, r, now);
      assert j in s.jobs && s.jobs[j].active == Some(r);
    }
  }

  lemma ReconcileJobs(s: State, now: int)
    requires RunsBelong(s) && Active(s)
    ensures var t := Reconcile(s, now);
            && (forall j | j in s.jobs && s.jobs[j].state != Running :: t.jobs[j] == s.jobs[j])
            && (forall j | j in s.jobs && s.jobs[j].state == Running ::
                  t.jobs[j].state == Running || t.jobs[j].state == Disposition(s.jobs[j].task))
  {
    forall j | j in s.jobs && s.jobs[j].state != Running
      ensures Reconcile(s, now).jobs[j] == s.jobs[j]
    {
      assert s.jobs[j].active.None?;
    }
  }

  lemma ReconcileRuns(s: State, now: int)
    ensures var t := Reconcile(s, now); SameRuns(s, t) && SameReports(s, t) && t.jobs.Keys == s.jobs.Keys
    ensures var t := Reconcile(s, now);
            forall r | r in s.runs :: t.runs[r].result == s.runs[r].result
                                   && (t.runs[r].state == Reported(WAIT_USER) <==>
                                        s.runs[r].state == Reported(WAIT_USER))
  {
  }

  lemma ReconcileChanges(s: State, now: int)
    requires RunsBelong(s) && Active(s)
    ensures var t := Reconcile(s, now);
            && SameRuns(s, t) && SameReports(s, t) && SameWaits(s, t)
            && (forall j | j in s.jobs && s.jobs[j].state != Running :: t.jobs[j].state == s.jobs[j].state)
            && (forall j | j in s.jobs && t.jobs[j].state == Queued && !s.jobs[j].task.safeRetry ::
                 s.jobs[j].state == Queued)
  {
    hide ValidTask;
    ReconcileJobs(s, now);
    ReconcileRuns(s, now);
    hide RunsBelong, Active, SameRuns, SameReports;
    var t := Reconcile(s, now);
    assert t.decisions == s.decisions && t.jobs.Keys == s.jobs.Keys;
    hide Reconcile;
    forall j
      ensures Waiting(t, j) <==> Waiting(s, j)
    {
      assert j in t.jobs <==> j in s.jobs;
    }
  }

  lemma ReconcileKeepsInv(s: State, now: int)
    requires Inv(s)
    ensures Inv(Reconcile(s, now))
  {
    ReconcileChanges(s, now);
    var t := Reconcile(s, now);
    NumberedFrame(s, t);
    ReconcileActive(s, now);
    QuietReportsKeep(s, t);
  }

  /** What follows from unchanged reports, decisions and waiting jobs alone. */
  lemma QuietReportsKeep(s: State, t: State)
    requires Inv(s) && Numbered(t) && SameRuns(s, t) && SameReports(s, t) && SameWaits(s, t)
    requires forall j | j in s.jobs && s.jobs[j].state != Running :: t.jobs[j].state == s.jobs[j].state
    requires forall j | j in s.jobs && t.jobs[j].state == Queued && !s.jobs[j].task.safeRetry ::
             s.jobs[j].state == Queued
    ensures Recorded(t) && WaitingJobs(t) && WaitingRuns(t) && Decided(t) && Restrained(t) && Validated(t)
  {
    hide RunsBelong, AttemptsDistinct, AttemptsComplete, Active, Recorded, WaitingJobs, WaitingRuns, Decided,
      Restrained, ValidTask;
    RecordedFrame(s, t);
    WaitsFrame(s, t);
    DecidedFrame(s, t);
    RestrainedFrame(s, t);
  }

  lemma StoreWaits(s: State, run: Id, env: Envelope)
    requires Inv(s) && run in s.runs && s.runs[run].state == Leased
    requires env.payload.status == WAIT_USER ==>
               env.payload.gate.Some? && (s.runs[run].job, env.payload.gate.value) !in s.decisions
    ensures WaitingJobs(Store(s, run, env)) && WaitingRuns(Store(s, run, env))
  {
    hide ValidTask;
    var t := Store(s, run, env);
    var j := s.runs[run].job;
    assert IsActive(s, j, run);
    forall k | Waiting(t, k)
      ensures exists r, g :: CurrentWait(t, k, r, g) && (k, g) !in t.decisions
    {
      if k == j {
        assert CurrentWait(t, j, run, env.payload.gate.value);
      } else {
        assert Waiting(s, k);
        var r, g :| CurrentWait(s, k, r, g) && (k, g) !in s.decisions;
        assert CurrentWait(t, k, r, g);
      }
    }
    forall r, g | WaitsFor(t, r, g)
      ensures (Waiting(t, t.runs[r].job) && CurrentWait(t, t.runs[r].job, r, g))
           || ((t.runs[r].job, g) in t.decisions && t.decisions[(t.runs[r].job, g)].sourceRun == r)
    {
      assert r != run ==> WaitsFor(s, r, g);
      assert s.jobs[j].state == Running;
    }
  }

  lemma StoreActive(s: State, run: Id, env: Envelope)
    requires RunsBelong(s) && Active(s) && run in s.runs && s.runs[run].state == Leased
    ensures SameRuns(s, Store(s, run, env))
    ensures RunsBelong(Store(s, run, env)) ==> Active(Store(s, run, env))
  {
    hide ValidTask;
    var t := Store(s, run, env);
    var j := s.runs[run].job;
    assert IsActive(s, j, run);
    forall k | k in t.jobs && t.jobs[k].active.Some?
      ensures IsActive(t, k, t.jobs[k].active.value)
    {
      assert IsActive(s, k, s.jobs[k].active.value);
    }
  }

  lemma StoreRecorded(s: State, run: Id, env: Envelope)
    requires RunsBelong(s) && Recorded(s) && run in s.runs && s.runs[run].state == Leased
    requires GateAllowed(s.jobs[s.runs[run].job].task, env.payload) && RunsBelong(Store(s, run, env))
    ensures Recorded(Store(s, run, env))
  {
    var t := Store(s, run, env);
    forall r | r in t.runs
      ensures WellRecorded(t, r)
    {
      assert WellRecorded(s, r);
    }
  }

  lemma StoreRest(s: State, run: Id, env: Envelope)
    requires Inv(s) && run in s.runs && s.runs[run].state == Leased
    requires GateAllowed(s.jobs[s.runs[run].job].task, env.payload)
    ensures var t := Store(s, run, env);
            Numbered(t) && Active(t) && Recorded(t) && Decided(t) && Restrained(t) && Validated(t)
  {
    var t := Store(s, run, env);
    assert IsActive(s, s.runs[run].job, run);
    hide ValidTask, WaitingJobs, WaitingRuns, AttemptsComplete, AttemptsDistinct, Recorded, IsActive, GateAllowed,
      SameJobs;
    StoreActive(s, run, env);
    NumberedFrame(s, t);
    StoreRecorded(s, run, env);
    assert SameJobs(s, t);
    assert Validated(t) by {
      ValidatedFrame(s, t);
    }
    DecidedFrame(s, t);
    RestrainedFrame(s, t);
  }

  lemma ValidatedFrame(s: State, t: State)
    requires Validated(s) && SameJobs(s, t)
    ensures Validated(t)
  {
    hide ValidTask;
  }

  /** Only approvals have been recorded for a running job. */
  lemma RunningNotRejected(s: State, j: Id)
    requires Inv(s) && j in s.jobs && s.jobs[j].state == Running
    ensures forall g | (j, g) in s.decisions :: IsApproved(s, j, g)
  {
    forall g | (j, g) in s.decisions
      ensures IsApproved(s, j, g)
    {
      assert WellDecided(s, (j, g));
    }
  }

  lemma IngestKeepsInv(s: State, env: Envelope)
    requires Inv(s)
    ensures Inv(Ingest(s, env).0)
  {
    hide ValidTask, ValidEnvelope, EngineMatches, OwnsLease, Numbered, Recorded, WaitingJobs, WaitingRuns, Decided,
      Restrained;
    if Ingest(s, env).1 == Accepted {
      var stored := StoredEnvelope(s, env);
      assert IsActive(s, env.job, env.run);
      RunningNotRejected(s, env.job);
      StoreWaits(s, env.run, stored);
      StoreRest(s, env.run, stored);
    }
  }

  /** The run the gate query finds is the one of the current attempt. */
  lemma CurrentIsLatest(s: State, j: Id)
    requires Inv(s) && Waiting(s, j)
    ensures CurrentWaiting(s, j).Some?
    ensures exists g :: CurrentWait(s, j, CurrentWaiting(s, j).value, g) && (j, g) !in s.decisions
  {
    var r, g :| CurrentWait(s, j, r, g) && (j, g) !in s.decisions;
    assert IsCurrentWaiting(s, j, r);
    var c := CurrentWaiting(s, j).value;
    assert WaitingRun(s, j, r) && s.runs[r].attempt <= s.runs[c].attempt;
    assert c == r;
  }

  lemma DecideWaits(s: State, j: Id, gate: Gate, row: GateRow)
    requires Inv(s) && Waiting(s, j) && CurrentWait(s, j, row.sourceRun, gate)
             && row.disposition != Concluded(WAIT_USER)
    ensures WaitingJobs(Decide(s, j, gate, row)) && WaitingRuns(Decide(s, j, gate, row))
  {
    hide ValidTask;
    var t := Decide(s, j, gate, row);
    forall k | Waiting(t, k)
      ensures exists r, g :: CurrentWait(t, k, r, g) && (k, g) !in t.decisions
    {
      assert Waiting(s, k);
      var r, g :| CurrentWait(s, k, r, g) && (k, g) !in s.decisions;
      assert CurrentWait(t, k, r, g);
    }
    var (c, d) := WaitAndGate(s, j);
    forall r, g | WaitsFor(t, r, g)
      ensures (Waiting(t, t.runs[r].job) && CurrentWait(t, t.runs[r].job, r, g))
           || ((t.runs[r].job, g) in t.decisions && t.decisions[(t.runs[r].job, g)].sourceRun == r)
    {
      assert WaitsFor(s, r, g);
      if s.runs[r].job == j && s.runs[r].attempt == s.jobs[j].attempt {
        assert r == row.sourceRun && g == gate;
      }
    }
  }

  /** The waiting run of a waiting job and its gate, which is undecided. */
  ghost function WaitAndGate(s: State, j: Id): (w: (Id, Gate))
    requires Inv(s) && Waiting(s, j)
    ensures CurrentWait(s, j, w.0, w.1) && (j, w.1) !in s.decisions
  {
    var r, g :| CurrentWait(s, j, r, g) && (j, g) !in s.decisions;
    (r, g)
  }

  lemma ResolveKeepsInv(s: State, j: Id, gate: Gate, ruling: Ruling, source: Option<Id>, now: int)
    requires Inv(s)
    ensures Inv(Resolve(s, j, gate, ruling, source, now).0)
  {
    hide ValidTask, ValidRuling, Strip;
    var (t, outcome) := Resolve(s, j, gate, ruling, source, now);
    if outcome.Resolved? {
      CurrentIsLatest(s, j);
      DecideWaits(s, j, gate, outcome.row);
      DecideRest(s, j, gate, outcome.row);
    }
  }

  lemma DecideActive(s: State, j: Id, gate: Gate, row: GateRow)
    requires RunsBelong(s) && Active(s) && Waiting(s, j) && row.disposition != Running
    ensures SameRuns(s, Decide(s, j, gate, row))
    ensures RunsBelong(Decide(s, j, gate, row)) ==> Active(Decide(s, j, gate, row))
  {
    hide ValidTask;
    var t := Decide(s, j, gate, row);
    forall k | k in t.jobs && t.jobs[k].active.Some?
      ensures IsActive(t, k, t.jobs[k].active.value)
    {
      assert IsActive(s, k, s.jobs[k].active.value);
    }
  }

  lemma DecideDecided(s: State, j: Id, gate: Gate, row: GateRow)
    requires Decided(s) && Waiting(s, j) && row.disposition == GateDisposition(s.jobs[j].task, row.decision)
    requires gate in s.jobs[j].task.gates && gate != ""
    ensures Decided(Decide(s, j, gate, row))
  {
    var t := Decide(s, j, gate, row);
    forall k | k in t.decisions
      ensures WellDecided(t, k)
    {
      assert k != (j, gate) ==> WellDecided(s, k);
    }
  }

  lemma DecideRest(s: State, j: Id, gate: Gate, row: GateRow)
    requires Inv(s) && Waiting(s, j) && row.disposition == GateDisposition(s.jobs[j].task, row.decision)
    requires gate in s.jobs[j].task.gates && gate != ""
    ensures var t := Decide(s, j, gate, row);
            Numbered(t) && Active(t) && Recorded(t) && Decided(t) && Restrained(t) && Validated(t)
  {
    hide ValidTask, WaitingJobs, WaitingRuns, AttemptsComplete, AttemptsDistinct, Recorded, Decided, IsActive;
    var t := Decide(s, j, gate, row);
    DecideActive(s, j, gate, row);
    NumberedFrame(s, t);
    RecordedFrame(s, t);
    DecideDecided(s, j, gate, row);
    ValidatedFrame(s, t);
    RestrainedFrame(s, t);
  }

  lemma ApplyKeepsInv(s: State, op: Op, now: int)
    requires Inv(s)
    ensures Inv(Apply(s, op, now))
  {
    hide Inv;
    match op {
      case DoEnqueue(task, drawn) => EnqueueKeepsInv(s, task, drawn, now);
      case DoClaim(worker, run, lease, token) => ClaimKeepsInv(s, worker, now, run, lease, token);
      case DoHeartbeat(run, lease, token) => HeartbeatKeepsInv(s, run, lease, token, now);
      case DoReconcile => ReconcileKeepsInv(s, now);
      case DoIngest(env) => IngestKeepsInv(s, env);
      case DoResolve(job, gate, ruling, source) => ResolveKeepsInv(s, job, gate, ruling, source, now);
      case DoRegister(worker, descriptor) => RegisterKeepsInv(s, worker, descriptor);
    }
  }

  /** The invariant holds in every reachable state. */
  lemma {:induction false} AlwaysInv(history: seq<(Op, int)>)
    ensures Inv(After(history))
  {
    if history != [] {
      AlwaysInv(history[..|history| - 1]);
      ApplyKeepsInv(After(history[..|history| - 1]), history[|history| - 1].0, history[|history| - 1].1);
    }
  }
}
