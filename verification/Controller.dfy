/** The Hermes controller as an object: the tables are its fields and every
    method is one transaction (hermes_controller/controller.py). */
module HermesController {
  import opened Common
  import opened LeaseState
  import opened LeaseInvariants

  // --- one idempotency key, one job -------------------------------------------------------------

  ghost predicate UniqueKeys(s: State) {
    forall j, k, key :: HasKey(s, j, key) && HasKey(s, k, key) ==> j == k
  }

  lemma EnqueueKeepsKeys(s: State, task: Task, drawn: Id, now: int)
    requires UniqueKeys(s)
    ensures UniqueKeys(Enqueue(s, task, drawn, now).0)
  {
    hide ValidTask;
    var t := Enqueue(s, task, drawn, now).0;
    forall j, k, key | HasKey(t, j, key) && HasKey(t, k, key)
      ensures j == k
    {
      assert j in s.jobs ==> HasKey(s, j, key);
      assert k in s.jobs ==> HasKey(s, k, key);
    }
  }

  /** No other operation adds a job or changes a key. */
  lemma TasksStay(s: State, op: Op, now: int)
    requires !op.DoEnqueue?
    ensures var t := Apply(s, op, now);
            t.jobs.Keys == s.jobs.Keys && forall j | j in s.jobs :: t.jobs[j].task == s.jobs[j].task
  {
    hide ValidEnvelope, EngineMatches, GateAllowed, StoredEnvelope, ValidRuling, RowOf;
  }

  lemma ApplyKeepsKeys(s: State, op: Op, now: int)
    requires UniqueKeys(s)
    ensures UniqueKeys(Apply(s, op, now))
  {
    if op.DoEnqueue? {
      EnqueueKeepsKeys(s, op.task, op.drawn, now);
    } else {
      TasksStay(s, op, now);
      hide Apply;
      var t := Apply(s, op, now);
      forall j, k, key | HasKey(t, j, key) && HasKey(t, k, key)
        ensures j == k
      {
        assert HasKey(s, j, key) && HasKey(s, k, key);
      }
    }
  }

  lemma ReconcileKeepsKeys(s: State, now: int)
    requires UniqueKeys(s)
    ensures UniqueKeys(Reconcile(s, now))
  {
    hide UniqueKeys, Reconcile;
    ApplyKeepsKeys(s, DoReconcile, now);
  }

  lemma FoundAgain(s: State, task: Task, drawn: Id, now: int, j: Id)
    requires UniqueKeys(s) && ValidTask(task) && task.key.Some? && task.key.value != "" && HasKey(s, j, task.key.value)
    ensures Enqueue(s, task, drawn, now) == (s, AlreadyQueued(j))
  {
    hide ValidTask;
  }

  lemma {:induction false} AlwaysUniqueKeys(history: seq<(Op, int)>)
    ensures UniqueKeys(After(history))
  {
    if history != [] {
      AlwaysUniqueKeys(history[..|history| - 1]);
      ApplyKeepsKeys(After(history[..|history| - 1]), history[|history| - 1].0, history[|history| - 1].1);
    }
  }

  lemma KeyStays(s: State, op: Op, now: int, j: Id, key: string)
    requires HasKey(s, j, key)
    ensures HasKey(Apply(s, op, now), j, key)
  {
  }

  /** Enqueueing under a key that is already in use only finds the job again,
      however much has happened since. */
  lemma {:induction false} EnqueueIsIdempotent(history: seq<(Op, int)>, n: nat, j: Id, task: Task, drawn: Id, now: int)
    requires n <= |history| && ValidTask(task) && task.key.Some? && task.key.value != ""
    requires HasKey(After(history[..n]), j, task.key.value)
    ensures HasKey(After(history), j, task.key.value)
    ensures Enqueue(After(history), task, drawn, now) == (After(history), AlreadyQueued(j))
  {
    AlwaysUniqueKeys(history);
    if n == |history| {
      assert history[..n] == history;
    } else {
      var before, last := history[..|history| - 1], history[|history| - 1];
      assert before[..n] == history[..n];
      EnqueueIsIdempotent(before, n, j, task, drawn, now);
      KeyStays(After(before), last.0, last.1, j, task.key.value);
    }
  }

  // --- reconciling one run at a time ---------------------------------------------------------------

  /** The body of the loop over expired runs. */
  function ReclaimRun(s: State, r: Id): State
    requires r in s.runs
  {
    var run := s.runs[r];
    s.(runs := s.runs[r := run.(state := Stale)],
       jobs := if run.job in s.jobs && s.jobs[run.job].active == Some(r)
               then s.jobs[run.job := s.jobs[run.job].(state := Disposition(s.jobs[run.job].task), active := None)]
               else s.jobs)
  }

  /** The runs of `done` reclaimed at once. */
  ghost function Reclaimed(s: State, done: set<Id>): State
    requires done <= s.runs.Keys
  {
    s.(runs := map r | r in s.runs :: if r in done then s.runs[r].(state := Stale) else s.runs[r],
       jobs := map j | j in s.jobs ::
         if s.jobs[j].active.Some? && s.jobs[j].active.value in done && s.runs[s.jobs[j].active.value].job == j
         then s.jobs[j].(state := Disposition(s.jobs[j].task), active := None)
         else s.jobs[j])
  }

  lemma ReclaimedNone(s: State)
    ensures Reclaimed(s, {}) == s
  {
    assert Reclaimed(s, {}).runs == s.runs;
    assert Reclaimed(s, {}).jobs == s.jobs;
  }

  lemma ReclaimedRuns(s: State, done: set<Id>, r: Id)
    requires done <= s.runs.Keys && r in s.runs && r !in done
    ensures ReclaimRun(Reclaimed(s, done), r).runs == Reclaimed(s, done + {r}).runs
  {
  }

  lemma ReclaimedJobs(s: State, done: set<Id>, r: Id)
    requires done <= s.runs.Keys && r in s.runs && r !in done && s.runs[r].job in s.jobs
    ensures ReclaimRun(Reclaimed(s, done), r).jobs == Reclaimed(s, done + {r}).jobs
  {
    var job := s.runs[r].job;
    var t, u := ReclaimRun(Reclaimed(s, done), r).jobs, Reclaimed(s, done + {r}).jobs;
    assert Reclaimed(s, done).runs[r] == s.runs[r];
    assert t.Keys == u.Keys;
    forall j | j in u
      ensures t[j] == u[j]
    {
      assert j != job ==> s.jobs[j].active != Some(r) || s.runs[r].job != j;
    }
  }

  lemma ReclaimedStep(s: State, done: set<Id>, r: Id)
    requires done <= s.runs.Keys && r in s.runs && r !in done && s.runs[r].job in s.jobs
    ensures r in Reclaimed(s, done).runs
    ensures ReclaimRun(Reclaimed(s, done), r) == Reclaimed(s, done + {r})
  {
    ReclaimedRuns(s, done, r);
    ReclaimedJobs(s, done, r);
  }

  lemma ReclaimedAll(s: State, now: int)
    ensures var expired := set r | r in s.runs && Reclaimable(s, r, now); Reclaimed(s, expired) == Reconcile(s, now)
  {
    var expired := set r | r in s.runs && Reclaimable(s, r, now);
    assert Reclaimed(s, expired).runs == Reconcile(s, now).runs;
    assert Reclaimed(s, expired).jobs == Reconcile(s, now).jobs;
  }

  // --- the query for a worker's next job ----------------------------------------------------------------

  predicate Candidate(s: State, j: Id) {
    j in s.jobs && s.jobs[j].state == Queued && DependencyDone(s, s.jobs[j].task)
  }

  /** The rows of the query: `rows` lists `jobs` by age, then id. */
  ghost predicate Ordered(s: State, rows: seq<Id>, jobs: set<Id>) {
    && (forall j :: j in rows <==> j in jobs)
    && (forall j | j in rows :: j in s.jobs)
    && (forall i, k | 0 <= i < k < |rows| :: Before(s, rows[i], rows[k]))
  }

  lemma RunsHaveJobs(s: State)
    requires Inv(s)
    ensures forall r | r in s.runs :: s.runs[r].job in s.jobs
  {
  }

  lemma FirstIsUnique(s: State, worker: Id, j: Id)
    requires IsFirst(s, worker, j)
    ensures Pick(s, worker) == Some(j)
  {
    var k := Pick(s, worker).value;
    assert Before(s, j, k) && Before(s, k, j);
  }

  class Controller {
    var jobs: map<Id, Job>
    var runs: map<Id, Run>
    var decisions: map<(Id, Gate), GateRow>
    var workers: map<Id, Descriptor>

    function Tables(): State
      reads this
    {
      State(jobs, runs, decisions, workers)
    }

    ghost predicate Valid()
      reads this
    {
      Inv(Tables()) && UniqueKeys(Tables())
    }

    constructor ()
      ensures Tables() == EMPTY_TABLES && Valid()
    {
      jobs, runs, decisions, workers := map[], map[], map[], map[];
      new;
      hide Inv, UniqueKeys;
      AlwaysInv([]);
      AlwaysUniqueKeys([]);
    }

    method FindByKey(key: string) returns (found: Option<Id>)
      ensures found.Some? ==> HasKey(Tables(), found.value, key)
      ensures found.None? ==> forall j :: !HasKey(Tables(), j, key)
    {
      var left := jobs.Keys;
      found := None;
      while left != {}
        invariant left <= jobs.Keys && found.None?
        invariant forall j | j in jobs.Keys - left :: !HasKey(Tables(), j, key)
        decreases |left|
      {
        ghost var some := Member(left);
        var j :| j in left;
        if jobs[j].task.key == Some(key) {
          found := Some(j);
          return;
        }
        left := left - {j};
      }
    }

    method DoEnqueue(task: Task, drawn: Id, now: int) returns (outcome: EnqueueResult)
      requires Valid()
      modifies this
      ensures Valid()
      ensures (Tables(), outcome) == Enqueue(old(Tables()), task, drawn, now)
    {
      hide Inv, UniqueKeys, ValidTask;
      EnqueueKeepsInv(Tables(), task, drawn, now);
      ApplyKeepsKeys(Tables(), LeaseState.DoEnqueue(task, drawn), now);
      if !ValidTask(task) {
        return InvalidTask;
      }
      var holder: Option<Id> := None;
      if task.key.Some? {
        holder := FindByKey(task.key.value);
        if holder.Some? && task.key.value != "" {
          FoundAgain(Tables(), task, drawn, now, holder.value);
          return AlreadyQueued(holder.value);
        }
      }
      var id := if task.jobId.Some? then task.jobId.value else drawn;
      if id in jobs || holder.Some? || (task.dependsOn.Some? && task.dependsOn.value !in jobs
          && task.dependsOn.value != id) {
        return IntegrityError;
      }
      assert Insertable(Tables(), id, task);
      jobs := jobs[id := Job(task, Queued, 0, None, now)];
      return Enqueued(id);
    }

    /** Puts `j` where it belongs among the rows. */
    method Insert(rows: seq<Id>, j: Id) returns (result: seq<Id>)
      requires j in jobs && j !in rows
      requires Ordered(Tables(), rows, set k | k in rows)
      ensures Ordered(Tables(), result, (set k | k in rows) + {j})
    {
      var i := 0;
      while i < |rows| && Before(Tables(), rows[i], j)
        invariant 0 <= i <= |rows|
        invariant forall k | 0 <= k < i :: Before(Tables(), rows[k], j)
      {
        i := i + 1;
      }
      result := rows[..i] + [j] + rows[i..];
      assert forall k | i <= k < |rows| :: Before(Tables(), j, rows[k]) by {
        if i < |rows| {
          assert forall k | i <= k < |rows| :: Before(Tables(), rows[i], rows[k]);
        }
      }
    }

    method QueuedRows() returns (rows: seq<Id>)
      ensures Ordered(Tables(), rows, set j | j in jobs && Candidate(Tables(), j))
    {
      var left := set j | j in jobs && Candidate(Tables(), j);
      ghost var all := left;
      rows := [];
      while left != {}
        invariant left <= all
        invariant Ordered(Tables(), rows, all - left)
        decreases |left|
      {
        ghost var some := Member(left);
        var j :| j in left;
        assert (set k | k in rows) == all - left;
        rows := Insert(rows, j);
        left := left - {j};
        assert all - left == (all - (left + {j})) + {j};
      }
      assert all - left == all;
    }

    method DoClaim(worker: Id, now: int, run: Id, lease: Id, token: Id) returns (outcome: ClaimResult)
      requires Valid()
      modifies this
      ensures Valid()
      ensures (Tables(), outcome) == TakeClaim(old(Tables()), worker, now, run, lease, token)
    {
      hide Inv, UniqueKeys, ValidTask;
      ClaimKeepsInv(Tables(), worker, now, run, lease, token);
      ApplyKeepsKeys(Tables(), LeaseState.DoClaim(worker, run, lease, token), now);
      if worker !in workers {
        return UnknownWorker;
      }
      if |LiveRuns(Tables(), worker, now)| >= workers[worker].maxConcurrent {
        return NothingToClaim;
      }
      var rows := QueuedRows();
      var i := 0;
      while i < |rows|
        invariant 0 <= i <= |rows| && Tables() == old(Tables())
        invariant forall k | 0 <= k < i :: !Eligible(Tables(), worker, rows[k])
      {
        var j := rows[i];
        assert j in rows;
        assert Candidate(Tables(), j);
        if Matches(workers[worker], worker, jobs[j].task) {
          FirstRowIsFirst(Tables(), worker, rows, i);
          if run in runs {
            return ClaimError;
          }
          outcome := Claimed(ClaimOf(Tables(), j, run, lease, token));
          var attempt := jobs[j].attempt + 1;
          jobs := jobs[j := jobs[j].(state := Running, attempt := attempt, active := Some(run))];
          runs := runs[run := Run(j, worker, attempt, lease, token, Leased, now, now + LEASE_DURATION_MS, None)];
          return;
        }
        i := i + 1;
      }
      NoRowNoPick(Tables(), worker, rows);
      return NothingToClaim;
    }

    method DoHeartbeat(run: Id, lease: Id, token: Id, now: int) returns (renewed: bool)
      requires Valid()
      modifies this
      ensures Valid()
      ensures (Tables(), renewed) == Heartbeat(old(Tables()), run, lease, token, now)
    {
      hide Inv, UniqueKeys;
      HeartbeatKeepsInv(Tables(), run, lease, token, now);
      ApplyKeepsKeys(Tables(), LeaseState.DoHeartbeat(run, lease, token), now);
      renewed := Renewable(Tables(), run, lease, token, now);
      if renewed {
        runs := runs[run := runs[run].(expires := now + LEASE_DURATION_MS)];
      }
    }

    method Reclaim(r: Id)
      requires r in runs
      modifies this
      ensures Tables() == ReclaimRun(old(Tables()), r)
    {
      var j := runs[r].job;
      if j in jobs && jobs[j].active == Some(r) {
        jobs := jobs[j := jobs[j].(state := Disposition(jobs[j].task), active := None)];
      }
      runs := runs[r := runs[r].(state := Stale)];
    }

    /** The expired runs are settled one by one, in any order. */
    method ReclaimEach(expired: set<Id>) returns (affected: seq<Id>)
      requires expired <= runs.Keys
      requires forall r | r in runs :: runs[r].job in jobs
      modifies this
      ensures Tables() == Reclaimed(old(Tables()), expired)
      ensures Distinct(affected) && forall r :: r in affected <==> r in expired
    {
      hide Reclaimed, ReclaimRun;
      ghost var s := Tables();
      var left := expired;
      ghost var done: set<Id> := {};
      affected := [];
      ReclaimedNone(s);
      while left != {}
        invariant left !! done && left + done == expired
        invariant Tables() == Reclaimed(s, done)
        invariant forall r :: r in affected <==> r in done
        invariant Distinct(affected)
        decreases |left|
      {
        ghost var some := Member(left);
        var r :| r in left;
        ReclaimedStep(s, done, r);
        Reclaim(r);
        affected := affected + [r];
        left, done := left - {r}, done + {r};
      }
      assert done == expired;
    }

    method DoReconcile(now: int) returns (affected: seq<Id>)
      requires Valid()
      modifies this
      ensures Tables() == Reconcile(old(Tables()), now)
      ensures Distinct(affected) && forall r :: r in affected <==> Reclaimable(old(Tables()), r, now)
      ensures Valid()
    {
      RunsHaveJobs(Tables());
      hide Inv, UniqueKeys, Reconcile, Reclaimed;
      ReconcileKeepsInv(Tables(), now);
      ReconcileKeepsKeys(Tables(), now);
      ReclaimedAll(Tables(), now);
      affected := ReclaimEach(set r | r in runs && Reclaimable(Tables(), r, now));
    }

    method DoIngest(envelope: Envelope) returns (outcome: IngestResult)
      requires Valid()
      modifies this
      ensures Valid()
      ensures (Tables(), outcome) == Ingest(old(Tables()), envelope)
    {
      hide Inv, UniqueKeys, ValidEnvelope, EngineMatches;
      IngestKeepsInv(Tables(), envelope);
      ApplyKeepsKeys(Tables(), LeaseState.DoIngest(envelope), 0);
      if !ValidEnvelope(envelope) {
        return RefusedResult;
      }
      if envelope.run !in runs {
        return StaleResult;
      }
      var run := runs[envelope.run];
      if run.state.Reported? && run.result == Some(envelope) {
        return Duplicate;
      }
      if run.state != Leased || !OwnsLease(run, envelope) {
        return StaleResult;
      }
      if run.job !in jobs || jobs[run.job].active != Some(envelope.run) {
        return StaleResult;
      }
      var task := jobs[run.job].task;
      if !EngineMatches(task, envelope) {
        return RefusedResult;
      }
      var stored := envelope;
      if envelope.payload.status == WAIT_USER {
        if envelope.payload.gate.None? || envelope.payload.gate.value !in task.gates {
          return RefusedResult;
        }
        if IsApproved(Tables(), run.job, envelope.payload.gate.value) {
          stored := Rewritten(envelope, envelope.payload.gate.value);
        }
      } else if envelope.payload.gate.Some? {
        return RefusedResult;
      }
      runs := runs[envelope.run := run.(state := Reported(stored.payload.status), result := Some(stored))];
      jobs := jobs[run.job := jobs[run.job].(state := Concluded(stored.payload.status), active := None)];
      return Accepted;
    }

    /** The waiting run of the highest attempt. */
    method FindCurrentWaiting(j: Id) returns (found: Option<Id>)
      requires Valid()
      ensures found == CurrentWaiting(Tables(), j)
    {
      hide Inv, UniqueKeys, CurrentWaiting, IsCurrentWaiting;
      var left := set r | r in runs && WaitingRun(Tables(), j, r);
      ghost var all := left;
      found := None;
      while left != {}
        invariant left <= all
        invariant found.None? ==> left == all
        invariant found.Some? ==> WaitingRun(Tables(), j, found.value)
        invariant found.Some? ==> forall q | q in all - left :: runs[q].attempt <= runs[found.value].attempt
        decreases |left|
      {
        ghost var some := Member(left);
        var r :| r in left;
        if found.None? || runs[r].attempt > runs[found.value].attempt {
          found := Some(r);
        }
        left := left - {r};
      }
      if found.Some? {
        LatestIsCurrent(Tables(), j, found.value, all);
      } else {
        NothingWaits(Tables(), j, all);
      }
    }

    method DoResolve(j: Id, gate: Gate, ruling: Ruling, source: Option<Id>, now: int) returns (outcome: ResolveResult)
      requires Valid()
      modifies this
      ensures Valid()
      ensures (Tables(), outcome) == Resolve(old(Tables()), j, gate, ruling, source, now)
    {
      hide Inv, UniqueKeys, ValidRuling, Strip;
      ResolveKeepsInv(Tables(), j, gate, ruling, source, now);
      ApplyKeepsKeys(Tables(), LeaseState.DoResolve(j, gate, ruling, source), now);
      if gate == "" || !ValidRuling(ruling) || j !in jobs {
        return GateError;
      }
      if (j, gate) in decisions {
        var existing := decisions[(j, gate)];
        if source.Some? && existing.sourceRun != source.value {
          return GateConflict;
        }
        if existing.decision != ruling.decision {
          return GateConflict;
        }
        return AlreadyResolved(existing);
      }
      if jobs[j].state != Concluded(WAIT_USER) {
        return GateConflict;
      }
      if gate !in jobs[j].task.gates {
        return GateError;
      }
      var current := FindCurrentWaiting(j);
      if current.None? || runs[current.value].result.value.payload.gate != Some(gate) {
        return GateConflict;
      }
      if source.Some? && source.value != current.value {
        return GateConflict;
      }
      var disposition :=
        if ruling.decision == Approved then (if jobs[j].task.safeRetry then Queued else NeedsReconciliation)
            else Cancelled;
      var row := GateRow(ruling.decision, Strip(ruling.actor), ruling.note, current.value, disposition, now);
      decisions := decisions[(j, gate) := row];
      jobs := jobs[j := jobs[j].(state := disposition, active := None)];
      return Resolved(row);
    }

    method DoRegister(worker: Id, d: Descriptor)
      requires Valid()
      modifies this
      ensures Valid()
      ensures Tables() == Register(old(Tables()), worker, d)
    {
      hide Inv, UniqueKeys;
      RegisterKeepsInv(Tables(), worker, d);
      ApplyKeepsKeys(Tables(), LeaseState.DoRegister(worker, d), 0);
      workers := workers[worker := d];
    }
  }

  lemma FirstRowIsFirst(s: State, worker: Id, rows: seq<Id>, i: nat)
    requires i < |rows| && Ordered(s, rows, set j | j in s.jobs && Candidate(s, j))
    requires worker in s.workers && Eligible(s, worker, rows[i])
    requires forall k | 0 <= k < i :: !Eligible(s, worker, rows[k])
    ensures Pick(s, worker) == Some(rows[i])
  {
    forall k | Eligible(s, worker, k)
      ensures Before(s, rows[i], k)
    {
      assert Candidate(s, k);
      assert k in rows;
      var m :| 0 <= m < |rows| && rows[m] == k;
    }
    assert IsFirst(s, worker, rows[i]);
    FirstIsUnique(s, worker, rows[i]);
  }

  lemma NoRowNoPick(s: State, worker: Id, rows: seq<Id>)
    requires Ordered(s, rows, set j | j in s.jobs && Candidate(s, j))
    requires forall k | 0 <= k < |rows| :: !Eligible(s, worker, rows[k])
    ensures Pick(s, worker) == None
  {
    forall j
      ensures !IsFirst(s, worker, j)
    {
      assert Eligible(s, worker, j) ==> Candidate(s, j);
      assert Candidate(s, j) ==> j in rows;
    }
  }

  lemma NothingWaits(s: State, j: Id, all: set<Id>)
    requires all == {} && all == set q | q in s.runs && WaitingRun(s, j, q)
    ensures CurrentWaiting(s, j) == None
  {
    assert forall r :: WaitingRun(s, j, r) ==> r in all;
  }

  lemma LatestIsCurrent(s: State, j: Id, r: Id, all: set<Id>)
    requires Inv(s) && WaitingRun(s, j, r) && all == set q | q in s.runs && WaitingRun(s, j, q)
    requires forall q | q in all :: s.runs[q].attempt <= s.runs[r].attempt
    ensures CurrentWaiting(s, j) == Some(r)
  {
    assert IsCurrentWaiting(s, j, r) by {
      forall q | WaitingRun(s, j, q)
        ensures s.runs[q].attempt <= s.runs[r].attempt
      {
        assert q in all;
      }
    }
    var c := CurrentWaiting(s, j).value;
    assert WaitingRun(s, j, c) && s.runs[c].attempt == s.runs[r].attempt;
  }
}
