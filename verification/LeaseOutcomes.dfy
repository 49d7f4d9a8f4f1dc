/** What the controller's tables say of a job at any time, in terms of its last
    run and its gate decisions, and what each operation writes. */
module LeaseOutcomes {
  import opened Common
  import opened LeaseState
  import opened LeaseInvariants
  import opened LeaseTheorems

  // --- the state of a job tells how its last run ended ----------------------------------------

  /** `r` is the run of the current attempt of `j`. */
  ghost predicate IsLast(s: State, j: Id, r: Id) {
    j in s.jobs && r in s.runs && s.runs[r].job == j && s.runs[r].attempt == s.jobs[j].attempt
  }

  /** `r` waited for `g`, and this was decided. */
  ghost predicate WaitDecided(s: State, j: Id, r: Id, g: Gate, decision: Decision) {
    && WaitsFor(s, r, g) && (j, g) in s.decisions
    && s.decisions[(j, g)].sourceRun == r && s.decisions[(j, g)].decision == decision
  }

  /** The last run lost its lease, or waited for a gate that was approved. */
  ghost predicate GivenBack(s: State, j: Id) {
    exists r :: IsLast(s, j, r) && (s.runs[r].state == Stale || exists g :: WaitDecided(s, j, r, g, Approved))
  }

  ghost predicate LastReported(s: State, j: Id, outcome: Status) {
    exists r :: IsLast(s, j, r) && s.runs[r].state == Reported(outcome)
  }

  ghost predicate LastRejected(s: State, j: Id) {
    exists r, g :: IsLast(s, j, r) && WaitDecided(s, j, r, g, Rejected)
  }

  /** Why a job is in the state it is in. */
  ghost predicate Explained(s: State, j: Id)
    requires j in s.jobs
  {
    match s.jobs[j].state
    case Queued => s.jobs[j].attempt == 0 || (s.jobs[j].task.safeRetry && GivenBack(s, j))
    case Running => exists r :: IsLast(s, j, r) && s.runs[r].state == Leased
    case Concluded(outcome) => LastReported(s, j, outcome)
    case NeedsReconciliation => !s.jobs[j].task.safeRetry && GivenBack(s, j)
    case Cancelled => LastRejected(s, j)
  }

  ghost predicate AllExplained(s: State) {
    forall j | j in s.jobs :: Explained(s, j)
  }

  /** A job and the settled runs and decisions that explain it stay as they are. */
  ghost predicate Stays(s: State, t: State, j: Id) {
    && j in s.jobs && j in t.jobs && t.jobs[j].state == s.jobs[j].state && t.jobs[j].attempt == s.jobs[j].attempt
    && t.jobs[j].task == s.jobs[j].task
    && (forall r | r in s.runs && s.runs[r].job == j ::
          && r in t.runs && t.runs[r].job == j && t.runs[r].attempt == s.runs[r].attempt
          && t.runs[r].state == s.runs[r].state && t.runs[r].result == s.runs[r].result)
    && (forall g | (j, g) in s.decisions :: (j, g) in t.decisions && t.decisions[(j, g)] == s.decisions[(j, g)])
  }

  lemma StillGivenBack(s: State, t: State, j: Id)
    requires Stays(s, t, j) && GivenBack(s, j)
    ensures GivenBack(t, j)
  {
    var r :| IsLast(s, j, r) && (s.runs[r].state == Stale || exists g :: WaitDecided(s, j, r, g, Approved));
    assert IsLast(t, j, r);
    if s.runs[r].state != Stale {
      var g :| WaitDecided(s, j, r, g, Approved);
      assert WaitDecided(t, j, r, g, Approved);
    }
  }

  lemma StillRejected(s: State, t: State, j: Id)
    requires Stays(s, t, j) && LastRejected(s, j)
    ensures LastRejected(t, j)
  {
    var r, g :| IsLast(s, j, r) && WaitDecided(s, j, r, g, Rejected);
    assert IsLast(t, j, r) && WaitDecided(t, j, r, g, Rejected);
  }

  lemma StillLast(s: State, t: State, j: Id, state: RunState)
    requires Stays(s, t, j) && exists r :: IsLast(s, j, r) && s.runs[r].state == state
    ensures exists r :: IsLast(t, j, r) && t.runs[r].state == state
  {
    var r :| IsLast(s, j, r) && s.runs[r].state == state;
    assert IsLast(t, j, r);
  }

  lemma StillExplained(s: State, t: State, j: Id)
    requires Stays(s, t, j) && Explained(s, j)
    ensures Explained(t, j)
  {
    hide Stays, IsLast;
    StaysJob(s, t, j);
    hide WaitDecided, GivenBack, LastRejected;
    match s.jobs[j].state {
      case Queued => if s.jobs[j].attempt > 0 { StillGivenBack(s, t, j); }
      case Running => StillLast(s, t, j, Leased);
      case Concluded(outcome) => StillLast(s, t, j, Reported(outcome));
      case NeedsReconciliation => StillGivenBack(s, t, j);
      case Cancelled => StillRejected(s, t, j);
    }
  }

  lemma StaysJob(s: State, t: State, j: Id)
    requires Stays(s, t, j)
    ensures j in s.jobs && j in t.jobs
    ensures t.jobs[j].state == s.jobs[j].state && t.jobs[j].attempt == s.jobs[j].attempt
    ensures t.jobs[j].task == s.jobs[j].task
  {
  }

  lemma StartExplained(s: State, worker: Id, j: Id, now: int, run: Id, lease: Id, token: Id, k: Id)
    requires j in s.jobs && run !in s.runs && AllExplained(s) && RunsBelong(s)
    requires k in s.jobs
    ensures Explained(StartRun(s, worker, j, now, run, lease, token), k)
  {
    hide RunsBelong;
    var t := StartRun(s, worker, j, now, run, lease, token);
    if k == j {
      assert IsLast(t, j, run);
    } else {
      assert Stays(s, t, k);
      StillExplained(s, t, k);
    }
  }

  lemma ReconcileExplained(s: State, now: int, j: Id)
    requires RunsBelong(s) && Active(s) && AllExplained(s) && j in s.jobs
    ensures Explained(Reconcile(s, now), j)
  {
    var t := Reconcile(s, now);
    if s.jobs[j].active.Some? && Reclaimable(s, s.jobs[j].active.value, now) {
      var r: Id := s.jobs[j].active.value;
      assert IsActive(s, j, r);
      assert IsLast(t, j, r) && t.runs[r].state == Stale;
      assert GivenBack(t, j);
    } else {
      forall r | r in s.runs && s.runs[r].job == j
        ensures t.runs[r] == s.runs[r]
      {
        assert s.runs[r].state == Leased ==> s.jobs[j].active == Some(r);
      }
      assert Stays(s, t, j);
      hide Reconcile;
      StillExplained(s, t, j);
    }
  }

  lemma AcceptExplained(s: State, env: Envelope, j: Id)
    requires RunsBelong(s) && Active(s) && AllExplained(s) && j in s.jobs && Ingest(s, env).1 == Accepted
    ensures Explained(Ingest(s, env).0, j)
  {
    hide ValidEnvelope, EngineMatches, GateAllowed;
    var t := Ingest(s, env).0;
    if j == env.job {
      assert IsActive(s, j, env.run);
      assert IsLast(t, j, env.run);
    } else {
      assert Stays(s, t, j);
      hide Ingest;
      StillExplained(s, t, j);
    }
  }

  lemma ResolveExplained(s: State, j: Id, gate: Gate, ruling: Ruling, source: Option<Id>, now: int, k: Id)
    requires Inv(s) && AllExplained(s) && k in s.jobs && Resolve(s, j, gate, ruling, source, now).1.Resolved?
    ensures Explained(Resolve(s, j, gate, ruling, source, now).0, k)
  {
    RulingWrites(s, j, gate, ruling, source, now);
    CurrentIsLatest(s, j);
    hide Inv, Resolve, Strip;
    var t := Resolve(s, j, gate, ruling, source, now).0;
    if k == j {
      var r := CurrentWaiting(s, j).value;
      assert IsLast(t, j, r) && WaitDecided(t, j, r, gate, ruling.decision);
    } else {
      assert Stays(s, t, k);
      StillExplained(s, t, k);
    }
  }

  /** An operation that leaves all runs and states, or adds a job. */
  lemma QuietExplained(s: State, op: Op, now: int, j: Id)
    requires AllExplained(s) && (op.DoEnqueue? || op.DoHeartbeat? || op.DoRegister?) && j in Apply(s, op, now).jobs
    ensures Explained(Apply(s, op, now), j)
  {
    hide ValidTask, Explained;
    var t := Apply(s, op, now);
    if j in s.jobs {
      assert Stays(s, t, j);
      StillExplained(s, t, j);
    } else {
      NewExplained(t, j);
    }
  }

  lemma NewExplained(t: State, j: Id)
    requires j in t.jobs && t.jobs[j].state == Queued && t.jobs[j].attempt == 0
    ensures Explained(t, j)
  {
  }

  lemma ApplyExplained(s: State, op: Op, now: int)
    requires Inv(s) && AllExplained(s)
    ensures AllExplained(Apply(s, op, now))
  {
    var t := Apply(s, op, now);
    assert RunsBelong(s) && Active(s);
    hide Inv, Explained, TakeClaim, Ingest, Resolve, Reconcile, Enqueue, RunsBelong, Active;
    forall j | j in t.jobs
      ensures Explained(t, j)
    {
      if t == s {
      } else if op.DoClaim? {
        ClaimExplained(s, op, now, j);
      } else if op.DoReconcile? {
        ReconcileKeepsJobs(s, now);
        ReconcileExplained(s, now, j);
      } else if op.DoIngest? {
        IngestKeepsJobs(s, op.env);
        AcceptExplained(s, op.env, j);
      } else if op.DoResolve? {
        ResolveKeepsJobs(s, op, now);
        ResolveExplained(s, op.job, op.gate, op.ruling, op.source, now, j);
      } else {
        QuietExplained(s, op, now, j);
      }
    }
  }

  lemma ClaimExplained(s: State, op: Op, now: int, j: Id)
    requires AllExplained(s) && RunsBelong(s) && op.DoClaim? && Apply(s, op, now) != s && j in Apply(s, op, now).jobs
    ensures Explained(Apply(s, op, now), j)
  {
    hide RunsBelong, Explained;
    var picked := Pick(s, op.worker).value;
    StartExplained(s, op.worker, picked, now, op.run, op.lease, op.token, j);
  }

  lemma ReconcileKeepsJobs(s: State, now: int)
    ensures Reconcile(s, now).jobs.Keys == s.jobs.Keys
  {
  }

  lemma IngestKeepsJobs(s: State, env: Envelope)
    ensures Ingest(s, env).0 != s ==> Ingest(s, env).1 == Accepted && Ingest(s, env).0.jobs.Keys == s.jobs.Keys
  {
    hide ValidEnvelope, EngineMatches, GateAllowed;
  }

  lemma ResolveKeepsJobs(s: State, op: Op, now: int)
    requires op.DoResolve?
    ensures var (t, outcome) := Resolve(s, op.job, op.gate, op.ruling, op.source, now);
            t != s ==> outcome.Resolved? && t.jobs.Keys == s.jobs.Keys
  {
    hide ValidRuling, Strip;
  }

  /** In every reachable state each job's state tells how its last run ended and
      how the gate it waited for was decided: never run or given back, running,
      concluded with the outcome its last run reported, to be reconciled, or
      rejected. */
  lemma {:induction false} JobsAreExplained(history: seq<(Op, int)>)
    ensures AllExplained(After(history))
  {
    if history != [] {
      hide Apply, AllExplained;
      JobsAreExplained(history[..|history| - 1]);
      AlwaysInv(history[..|history| - 1]);
      ApplyExplained(After(history[..|history| - 1]), history[|history| - 1].0, history[|history| - 1].1);
    } else {
      NoJobsExplained();
    }
  }

  lemma NoJobsExplained()
    ensures AllExplained(EMPTY_TABLES)
  {
  }

  /** A concluded job has the outcome that the run of its current attempt reported. */
  lemma ConcludedAsReported(history: seq<(Op, int)>, j: Id) returns (r: Id)
    requires j in After(history).jobs && After(history).jobs[j].state.Concluded?
    ensures var s := After(history);
            && IsLast(s, j, r) && s.runs[r].state == Reported(s.jobs[j].state.outcome)
            && s.runs[r].result.Some? && s.runs[r].result.value.payload.status == s.jobs[j].state.outcome
  {
    JobsAreExplained(history);
    AlwaysInv(history);
    var s := After(history);
    hide After;
    assert Explained(s, j);
    r :| IsLast(s, j, r) && s.runs[r].state == Reported(s.jobs[j].state.outcome);
    assert WellRecorded(s, r);
  }

  /** A job with a dependency never runs before the last run of its parent has
      reported DONE. */
  lemma DependencyReportedDone(history: seq<(Op, int)>, r: Id) returns (last: Id)
    requires var s := After(history);
             r in s.runs && s.runs[r].job in s.jobs && s.jobs[s.runs[r].job].task.dependsOn.Some?
    ensures var s := After(history); var parent := s.jobs[s.runs[r].job].task.dependsOn.value;
            && IsLast(s, parent, last) && s.runs[last].state == Reported(DONE)
            && s.runs[last].result.Some? && s.runs[last].result.value.payload.status == DONE
  {
    DependencyIsDone(history, r);
    var s := After(history);
    last := ConcludedAsReported(history, s.jobs[s.runs[r].job].task.dependsOn.value);
  }

  // --- how long a lease lasts ---------------------------------------------------------------------

  /** When the lease of `r` was last granted or renewed. */
  ghost function LastExtended(history: seq<(Op, int)>, r: Id): int {
    if history == [] then 0
    else
      var before, (op, now) := history[..|history| - 1], history[|history| - 1];
      var s := After(before);
      if op.DoClaim? && op.run == r && r !in s.runs && r in After(history).runs then now
      else if op.DoHeartbeat? && op.run == r && Heartbeat(s, r, op.lease, op.token, now).1 then now
      else LastExtended(before, r)
  }

  /** A lease runs out three minutes after it was last granted or renewed. */
  lemma {:induction false} LeaseLastsThreeMinutes(history: seq<(Op, int)>, r: Id)
    requires r in After(history).runs
    ensures After(history).runs[r].expires == LastExtended(history, r) + 180_000
  {
    var before, op, now := history[..|history| - 1], history[|history| - 1].0, history[|history| - 1].1;
    ExpiryStep(After(before), op, now, r);
    if r in After(before).runs {
      LeaseLastsThreeMinutes(before, r);
    }
    hide Apply;
  }

  lemma ExpiryStep(s: State, op: Op, now: int, r: Id)
    requires r in Apply(s, op, now).runs
    ensures var t := Apply(s, op, now);
            if r !in s.runs then op.DoClaim? && op.run == r && t.runs[r].expires == now + 180_000
            else if op.DoHeartbeat? && op.run == r && Heartbeat(s, r, op.lease, op.token, now).1
            then t.runs[r].expires == now + 180_000
            else t.runs[r].expires == s.runs[r].expires
  {
    hide ValidTask, ValidEnvelope, EngineMatches, GateAllowed, ValidRuling, StoredEnvelope;
  }

  // --- what each operation writes -----------------------------------------------------------------

  /** A task that is queued comes in as a job of its own that has never run. */
  lemma EnqueueWrites(s: State, task: Task, drawn: Id, now: int)
    ensures var (t, outcome) := Enqueue(s, task, drawn, now);
            if outcome.Enqueued? then
              && outcome.id == (if task.jobId.Some? then task.jobId.value else drawn) && outcome.id !in s.jobs
              && t == s.(jobs := s.jobs[outcome.id := Job(task, Queued, 0, None, now)])
              && (task.key.Some? ==> forall j | j in s.jobs :: s.jobs[j].task.key != task.key)
              && (task.dependsOn.Some? ==> task.dependsOn.value in s.jobs || task.dependsOn.value == outcome.id)
            else t == s
  {
    hide ValidTask;
    var (t, outcome) := Enqueue(s, task, drawn, now);
    if outcome.Enqueued? && task.key.Some? {
      forall j | j in s.jobs
        ensures s.jobs[j].task.key != task.key
      {
        assert !HasKey(s, j, task.key.value);
      }
    }
  }

  /** What the validator asks of a task's executor: an explicit engine is known and
      its capabilities are required, and the one integration comes alone, exactly
      with the capability of its name. */
  predicate WellMade(task: Task) {
    && task.wellFormed && "" !in task.capabilities
    && (task.executionEngine.Some? ==>
          var engine := task.executionEngine.value;
          && engine in {"codex", "claude", "hybrid", "native", "brainstorm"}
          && (engine in {"codex", "hybrid", "brainstorm"} ==> "codex" in task.capabilities)
          && (engine in {"claude", "hybrid", "brainstorm"} ==> "claude" in task.capabilities))
    && task.integrations == if "github_api" in task.capabilities then ["github_api"] else []
  }

  lemma OnlyGithub(task: Task)
    ensures && Distinct(task.integrations) && (forall item | item in task.integrations :: item in KNOWN_INTEGRATIONS)
            && (GITHUB_API in task.integrations <==> GITHUB_API in task.capabilities)
            <==> task.integrations == if "github_api" in task.capabilities then ["github_api"] else []
  {
    var items := task.integrations;
    if |items| >= 2 {
      assert items[0] in items && items[1] in items;
    } else if |items| == 1 {
      assert items == [items[0]] && items[0] in items;
      assert Distinct(items);
    }
  }

  lemma WellMadeMeans(task: Task)
    ensures ValidTask(task) <==> WellMade(task)
  {
    OnlyGithub(task);
    hide Distinct, KNOWN_INTEGRATIONS;
  }

  ghost predicate InUse(s: State, key: Option<string>) {
    key.Some? && exists j :: j in s.jobs && s.jobs[j].task.key == key
  }

  lemma UsedMeans(s: State, key: string)
    ensures InUse(s, Some(key)) <==> exists j :: HasKey(s, j, key)
  {
    if j :| HasKey(s, j, key) {
      assert j in s.jobs && s.jobs[j].task.key == Some(key);
    }
    if j :| j in s.jobs && s.jobs[j].task.key == Some(key) {
      assert HasKey(s, j, key);
    }
  }

  lemma InsertableMeans(s: State, id: Id, task: Task)
    ensures Insertable(s, id, task) <==>
              && id !in s.jobs && !InUse(s, task.key)
              && (task.dependsOn.Some? ==> task.dependsOn.value in s.jobs || task.dependsOn.value == id)
  {
    if task.key.Some? {
      UsedMeans(s, task.key.value);
    }
    hide HasKey;
  }

  /** A task is queued exactly if it is well made, its key is new, its id is free
      and its parent is there; a used key finds the job that has it. */
  lemma EnqueuedExactlyWhen(s: State, task: Task, drawn: Id, now: int)
    ensures var outcome := Enqueue(s, task, drawn, now).1;
            var id := if task.jobId.Some? then task.jobId.value else drawn;
            && (outcome == InvalidTask <==> !WellMade(task))
            && (outcome.AlreadyQueued? <==> WellMade(task) && InUse(s, task.key) && task.key != Some(""))
            && (outcome.AlreadyQueued? ==> outcome.id in s.jobs && s.jobs[outcome.id].task.key == task.key)
            && (outcome.Enqueued? <==>
                  && WellMade(task) && !InUse(s, task.key) && id !in s.jobs
                  && (task.dependsOn.Some? ==> task.dependsOn.value in s.jobs || task.dependsOn.value == id))
  {
    WellMadeMeans(task);
    InsertableMeans(s, if task.jobId.Some? then task.jobId.value else drawn, task);
    if task.key.Some? {
      UsedMeans(s, task.key.value);
    }
    hide ValidTask, WellMade, InUse, Insertable;
  }

  /** A worker that gets a job is registered, below its limit and fit for it; the
      job was queued and waits for nothing; the new run and the claim agree. */
  lemma ClaimWrites(s: State, worker: Id, now: int, run: Id, lease: Id, token: Id)
    ensures var (t, outcome) := TakeClaim(s, worker, now, run, lease, token);
            if outcome.Claimed? then
              var c := outcome.claim;
              && worker in s.workers && c.job in s.jobs && run !in s.runs
              && var d, job := s.workers[worker], s.jobs[c.job];
                 && job.state == Queued && d.platform == job.task.platform && job.task.capabilities <= d.capabilities
                 && (job.task.worker == None || job.task.worker == Some(worker))
                 && (job.task.dependsOn.Some? ==>
                       job.task.dependsOn.value in s.jobs
                       && s.jobs[job.task.dependsOn.value].state == Concluded(DONE))
                 && |set r | r in s.runs && s.runs[r].worker == worker && s.runs[r].state == Leased
                           && now <= s.runs[r].expires| < d.maxConcurrent
                 && c.run == run && c.attempt == job.attempt + 1 && c.lease == lease && c.token == token
                 && c.task == job.task
                 && (forall g :: g in c.approved <==>
                       (c.job, g) in s.decisions && s.decisions[(c.job, g)].decision == Approved)
                 && t.jobs == s.jobs[c.job := Job(job.task, Running, c.attempt, Some(run), job.created)]
                 && t.runs == s.runs[run := Run(c.job, worker, c.attempt, lease, token, Leased, now, now + 180_000,
                      None)]
                 && t.decisions == s.decisions && t.workers == s.workers
            else t == s
  {
    var (t, outcome) := TakeClaim(s, worker, now, run, lease, token);
    if outcome.Claimed? {
      var c := outcome.claim;
      ApprovedAre(s, c.job);
      LiveAre(s, worker, now);
      hide ApprovedGates, LiveRuns;
      assert IsFirst(s, worker, c.job);
    }
  }

  lemma ApprovedAre(s: State, j: Id)
    ensures forall g :: g in ApprovedGates(s, j) <==> (j, g) in s.decisions && s.decisions[(j, g)].decision == Approved
  {
    forall g
      ensures g in ApprovedGates(s, j) <==> (j, g) in s.decisions && s.decisions[(j, g)].decision == Approved
    {
      assert (j, g).0 == j && (j, g).1 == g;
    }
  }

  /** A renewal needs the credentials of a lease that is still alive, and moves
      its end only. */
  lemma HeartbeatWrites(s: State, run: Id, lease: Id, token: Id, now: int)
    ensures var (t, renewed) := Heartbeat(s, run, lease, token, now);
            && (renewed <==> run in s.runs && s.runs[run].state == Leased && s.runs[run].lease == lease
                             && s.runs[run].token == token && now <= s.runs[run].expires)
            && t == if renewed then s.(runs := s.runs[run := s.runs[run].(expires := now + 180_000)]) else s
  {
  }

  /** A lease past its end makes its run stale and gives its job back or up. */
  lemma ReconcileWrites(s: State, now: int)
    requires Inv(s)
    ensures var t := Reconcile(s, now);
            && t.runs.Keys == s.runs.Keys && t.jobs.Keys == s.jobs.Keys
            && t.decisions == s.decisions && t.workers == s.workers
            && (forall r | r in s.runs ::
                  t.runs[r] == if s.runs[r].state == Leased && s.runs[r].expires < now
                               then s.runs[r].(state := Stale) else s.runs[r])
            && (forall j | j in s.jobs ::
                  if LostLease(s, j, now) then
                    t.jobs[j] == Job(s.jobs[j].task, if s.jobs[j].task.safeRetry then Queued else NeedsReconciliation,
                                     s.jobs[j].attempt, None, s.jobs[j].created)
                  else t.jobs[j] == s.jobs[j])
  {
    assert RunsBelong(s) && Active(s);
    hide Inv;
    forall j | j in s.jobs
      ensures LostLease(s, j, now) <==> s.jobs[j].active.Some? && Reclaimable(s, s.jobs[j].active.value, now)
      ensures s.jobs[j].active.Some? ==> s.runs[s.jobs[j].active.value].job == j
    {
      LostIsActive(s, j, now);
    }
    hide LostLease, Active, RunsBelong;
  }

  /** The last run of the job holds a lease past its end. */
  ghost predicate LostLease(s: State, j: Id, now: int) {
    exists r :: IsLast(s, j, r) && s.runs[r].state == Leased && s.runs[r].expires < now
  }

  lemma LostIsActive(s: State, j: Id, now: int)
    requires RunsBelong(s) && Active(s) && j in s.jobs
    ensures LostLease(s, j, now) <==> s.jobs[j].active.Some? && Reclaimable(s, s.jobs[j].active.value, now)
    ensures s.jobs[j].active.Some? ==> s.jobs[j].active.value in s.runs && s.runs[s.jobs[j].active.value].job == j
  {
    if s.jobs[j].active.Some? {
      assert IsActive(s, j, s.jobs[j].active.value);
      assert IsLast(s, j, s.jobs[j].active.value);
    }
    if r :| IsLast(s, j, r) && s.runs[r].state == Leased && s.runs[r].expires < now {
      assert s.jobs[j].active == Some(r);
    }
  }

  /** The credentials in the envelope are those of a running run. */
  ghost predicate HoldsLease(s: State, env: Envelope) {
    && env.run in s.runs && s.runs[env.run].state == Leased
    && s.runs[env.run].job == env.job && s.runs[env.run].worker == env.worker
    && s.runs[env.run].lease == env.lease && s.runs[env.run].token == env.token
    && s.runs[env.run].attempt == env.attempt
  }

  /** The label of the task's executor; an old client may leave it out, and knows
      only codex. */
  predicate RightLabel(task: Task, env: Envelope) {
    if env.legacy then
      && TaskEngine(task) != "github_api"
      && (env.engine == None || (env.engine == Some("codex") && TaskEngine(task) == "codex"))
    else env.engine == Some(TaskEngine(task))
  }

  /** The result a client sent for a running run, with that run's credentials, of
      the task's executor and within the gate rules. */
  ghost predicate Proper(s: State, env: Envelope) {
    && env.artifacts.objection.None? && HoldsLease(s, env) && env.job in s.jobs
    && var task := s.jobs[env.job].task;
       && RightLabel(task, env)
       && (if env.payload.status == WAIT_USER then env.payload.gate.Some? && env.payload.gate.value in task.gates
           else env.payload.gate == None)
  }

  lemma EngineIsKnown(task: Task)
    requires ValidTask(task)
    ensures TaskEngine(task) in ENGINE_CAPABILITIES || TaskEngine(task) in KNOWN_INTEGRATIONS
    ensures TaskEngine(task) in KNOWN_INTEGRATIONS <==> TaskEngine(task) == "github_api"
  {
  }

  /** The run a proper result is for is its job's active one and has no result. */
  lemma LeasedIsActive(s: State, r: Id)
    requires Inv(s) && r in s.runs && s.runs[r].state == Leased
    ensures s.runs[r].job in s.jobs && s.jobs[s.runs[r].job].active == Some(r)
    ensures ValidTask(s.jobs[s.runs[r].job].task)
  {
  }

  lemma LabelChecks(task: Task, env: Envelope)
    requires ValidTask(task)
    ensures ValidEnvelope(env) && EngineMatches(task, env) <==>
              env.artifacts.objection.None? && RightLabel(task, env)
  {
    EngineIsKnown(task);
    hide TaskEngine, ValidTask, ENGINE_CAPABILITIES;
    assert TaskEngine(task) == "github_api" ==> TaskEngine(task) in KNOWN_INTEGRATIONS;
  }

  /** In a reachable state a proper result, and no other, is accepted. */
  lemma AcceptedExactlyWhen(s: State, env: Envelope)
    requires Inv(s)
    ensures Ingest(s, env).1 == Accepted <==> Proper(s, env)
  {
    if env.run in s.runs && s.runs[env.run].state == Leased {
      LeasedIsActive(s, env.run);
      LabelChecks(s.jobs[s.runs[env.run].job].task, env);
    }
    hide Inv, TaskEngine, ValidTask, ENGINE_CAPABILITIES, ValidEnvelope, EngineMatches, Store, StoredEnvelope;
  }

  /** Valid artifacts, and a label that some executor has. */
  predicate WellFormed(env: Envelope) {
    && env.artifacts.objection == None
    && (env.legacy ==> env.engine == None || env.engine == Some("codex"))
    && (!env.legacy ==>
          env.engine.Some? && env.engine.value in {"codex", "claude", "hybrid", "native", "brainstorm", "github_api"})
  }

  lemma FormMeans(env: Envelope)
    ensures ValidEnvelope(env) <==> WellFormed(env)
  {
  }

  /** Every other answer: refused if it is malformed, or the lease is held and the
      label or the gate is wrong; a duplicate of what is stored; and else stale. */
  lemma AnsweredExactlyWhen(s: State, env: Envelope)
    requires Inv(s)
    ensures var outcome := Ingest(s, env).1;
            var stored := env.run in s.runs && s.runs[env.run].state.Reported? && s.runs[env.run].result == Some(env);
            && (outcome == RefusedResult <==> !WellFormed(env) || (HoldsLease(s, env) && !Proper(s, env)))
            && (outcome == Duplicate <==> WellFormed(env) && stored)
            && (outcome == StaleResult <==> WellFormed(env) && !stored && !HoldsLease(s, env))
  {
    FormMeans(env);
    AcceptedExactlyWhen(s, env);
    if HoldsLease(s, env) {
      LeasedIsActive(s, env.run);
    }
    hide Inv, TaskEngine, ValidTask, ENGINE_CAPABILITIES, ValidEnvelope, WellFormed, EngineMatches, Store,
      StoredEnvelope, GateAllowed, Proper;
  }

  /** What an accepted result leaves behind: the run and the job carry its status
      and nothing else changes; only a renewed request for an approved gate is
      written down as blocked. */
  lemma AcceptedWrites(s: State, env: Envelope)
    requires Ingest(s, env).1 == Accepted
    ensures env.run in s.runs && env.job in s.jobs
    ensures var t := Ingest(s, env).0; var run, job := s.runs[env.run], s.jobs[env.job];
            && t.jobs.Keys == s.jobs.Keys && t.runs.Keys == s.runs.Keys
            && t.decisions == s.decisions && t.workers == s.workers
            && (forall r | r in s.runs && r != env.run :: t.runs[r] == s.runs[r])
            && (forall j | j in s.jobs && j != env.job :: t.jobs[j] == s.jobs[j])
            && var again := env.payload.status == WAIT_USER && env.payload.gate.Some?
                            && (env.job, env.payload.gate.value) in s.decisions
                            && s.decisions[(env.job, env.payload.gate.value)].decision == Approved;
               var status := if again then BLOCKED else env.payload.status;
               && t.jobs[env.job] == Job(job.task, Concluded(status), job.attempt, None, job.created)
               && t.runs[env.run] == Run(run.job, run.worker, run.attempt, run.lease, run.token, Reported(status),
                                         run.claimedAt, run.expires, t.runs[env.run].result)
               && (!again ==> t.runs[env.run].result == Some(env))
               && (again ==>
                     && var gate := env.payload.gate.value;
                        var note := "gate-policy: blocked re-request of already-approved gate " + gate;
                        t.runs[env.run].result == Some(env.(payload := Payload(
                          BLOCKED, "adapter re-requested already-approved human gate: " + gate, None,
                          env.payload.evidence + [note]))))
  {
    hide ValidEnvelope, EngineMatches, GateAllowed;
  }

  /** Anything but an accepted result leaves the tables alone. */
  lemma OtherwiseUnchanged(s: State, env: Envelope)
    requires Ingest(s, env).1 != Accepted
    ensures Ingest(s, env).0 == s
    ensures Ingest(s, env).1 == Duplicate ==> env.run in s.runs && s.runs[env.run].result == Some(env)
  {
    hide ValidEnvelope, EngineMatches, GateAllowed, OwnsLease;
  }

  /** A ruling that is carried out is written down with its author and settles
      the waiting job: approved it is given back or up, rejected it is cancelled. */
  lemma RulingWrites(s: State, j: Id, gate: Gate, ruling: Ruling, source: Option<Id>, now: int)
    requires Resolve(s, j, gate, ruling, source, now).1.Resolved?
    ensures j in s.jobs && s.jobs[j].state == Concluded(WAIT_USER) && gate != "" && gate in s.jobs[j].task.gates
    ensures (j, gate) !in s.decisions && CurrentWaiting(s, j).Some? && WaitsFor(s, CurrentWaiting(s, j).value, gate)
    ensures var (t, outcome) := Resolve(s, j, gate, ruling, source, now); var job := s.jobs[j];
            var settled := if ruling.decision == Rejected then Cancelled
                           else if job.task.safeRetry then Queued else NeedsReconciliation;
            var row := GateRow(ruling.decision, Strip(ruling.actor), ruling.note, CurrentWaiting(s, j).value, settled,
                now);
            && outcome.row == row && t.runs == s.runs && t.workers == s.workers
            && t.decisions == s.decisions[(j, gate) := row]
            && t.jobs == s.jobs[j := Job(job.task, settled, job.attempt, None, job.created)]
  {
    hide ValidRuling, Strip;
  }

  /** Who decides gives a name of one to 128 characters without control characters,
      and a note of at most 2000 without a NUL. */
  predicate WellSigned(ruling: Ruling) {
    && 1 <= |Strip(ruling.actor)| <= 128 && (forall c | c in Strip(ruling.actor) :: c >= ' ')
    && (ruling.note == None || (|ruling.note.value| <= 2000 && '\0' !in ruling.note.value))
  }

  lemma SignedMeans(ruling: Ruling)
    ensures ValidRuling(ruling) <==> WellSigned(ruling)
  {
    hide Strip;
    var actor := Strip(ruling.actor);
    assert forall i | 0 <= i < |actor| :: actor[i] in actor;
  }

  /** In a reachable state a ruling is carried out exactly if it is well signed and
      the last run of a waiting job asked for this gate, and is the one meant. */
  lemma ResolvedExactlyWhen(s: State, j: Id, gate: Gate, ruling: Ruling, source: Option<Id>, now: int)
    requires Inv(s)
    ensures Resolve(s, j, gate, ruling, source, now).1.Resolved? <==>
              && gate != "" && WellSigned(ruling) && j in s.jobs && s.jobs[j].state == Concluded(WAIT_USER)
              && exists r :: IsLast(s, j, r) && WaitsFor(s, r, gate) && (source == None || source == Some(r))
  {
    SignedMeans(ruling);
    if Waiting(s, j) {
      var r, g := AwaitedGate(s, j, now);
      forall q, h | IsLast(s, j, q) && WaitsFor(s, q, h)
        ensures q == r && h == g
      {
        assert s.runs[q].attempt == s.runs[r].attempt;
      }
      assert IsLast(s, j, r) && WaitsFor(s, r, g);
    }
    hide Inv, ValidRuling, WellSigned, Strip, CurrentWaiting;
  }

  /** Every other answer to a ruling: an error for a ruling that is not in order, an
      unknown job or a gate that a waiting job does not declare; the row there is
      for a decision repeated; and else a conflict. */
  lemma RuledExactlyWhen(s: State, j: Id, gate: Gate, ruling: Ruling, source: Option<Id>, now: int)
    ensures var outcome := Resolve(s, j, gate, ruling, source, now).1;
            var sound, known := gate != "" && WellSigned(ruling) && j in s.jobs, (j, gate) in s.decisions;
            && (outcome == GateError <==>
                  !sound || (!known && s.jobs[j].state == Concluded(WAIT_USER) && gate !in s.jobs[j].task.gates))
            && (outcome.AlreadyResolved? <==>
                  && sound && known && s.decisions[(j, gate)].decision == ruling.decision
                  && (source == None || source == Some(s.decisions[(j, gate)].sourceRun)))
  {
    SignedMeans(ruling);
    hide ValidRuling, WellSigned, Strip;
  }

  /** A ruling that is not carried out changes nothing; one repeated is answered
      with the row written first. */
  lemma RulingOtherwise(s: State, j: Id, gate: Gate, ruling: Ruling, source: Option<Id>, now: int)
    requires !Resolve(s, j, gate, ruling, source, now).1.Resolved?
    ensures Resolve(s, j, gate, ruling, source, now).0 == s
    ensures var outcome := Resolve(s, j, gate, ruling, source, now).1;
            outcome.AlreadyResolved? ==>
              && (j, gate) in s.decisions && outcome.row == s.decisions[(j, gate)]
              && outcome.row.decision == ruling.decision && (source.None? || source == Some(outcome.row.sourceRun))
  {
    hide ValidRuling, Strip;
  }
}
