/** The tables of the Hermes controller and its operations as functions on
    them (hermes_controller/controller.py).  Every operation is one atomic step. */
module LeaseState {
  import opened Common

  /** Job, run and worker ids; their order stands for the order of the id strings. */
  type Id = int
  type Gate = string

  const LEASE_DURATION_MS: int := 180_000

  /** The engines and the capabilities each of them needs. */
  const ENGINE_CAPABILITIES: map<string, set<string>> := map[
    "codex" := {"codex"},
    "claude" := {"claude"},
    "hybrid" := {"codex", "claude"},
    "native" := {},
    "brainstorm" := {"codex", "claude"}]

  const GITHUB_API: string := "github_api"
  const KNOWN_INTEGRATIONS: set<string> := {GITHUB_API}

  datatype Status = DONE | WAIT_USER | BLOCKED | FAILED

  datatype JobState =
    | Queued
    | Running
    | Concluded(outcome: Status)
    | NeedsReconciliation
    | Cancelled

  datatype RunState = Leased | Stale | Reported(outcome: Status)

  /** A task snapshot.  `wellFormed` stands for what the validator checks of the
      fields that are not listed here. */
  datatype Task = Task(
    wellFormed: bool,
    jobId: Option<Id>,
    key: Option<string>,
    gates: seq<Gate>,
    executionEngine: Option<string>,
    integrations: seq<string>,
    safeRetry: bool,
    dependsOn: Option<Id>,
    worker: Option<Id>,
    platform: string,
    capabilities: set<string>)

  predicate ValidTask(task: Task) {
    && task.wellFormed
    && "" !in task.capabilities
    && (task.executionEngine.Some? ==>
          && task.executionEngine.value in ENGINE_CAPABILITIES
          && ENGINE_CAPABILITIES[task.executionEngine.value] <= task.capabilities)
    && Distinct(task.integrations) && (forall item | item in task.integrations :: item in KNOWN_INTEGRATIONS)
    && (GITHUB_API in task.integrations <==> GITHUB_API in task.capabilities)
  }

  /** The Controller's label for whoever executes a task. */
  function TaskEngine(task: Task): string {
    if GITHUB_API in task.integrations then GITHUB_API
    else if task.executionEngine.Some? && task.executionEngine.value != "" then task.executionEngine.value
    else if "codex" in task.capabilities then "codex"
    else "native"
  }

  datatype Job = Job(task: Task, state: JobState, attempt: nat, active: Option<Id>, created: int)

  datatype Payload = Payload(status: Status, summary: string, gate: Option<Gate>, evidence: seq<string>)

  /** Artifacts with their hashes, and what the artifact validator objects to. */
  datatype Artifacts = Artifacts(content: string, objection: Option<string>)

  const NO_ARTIFACTS: Artifacts := Artifacts("", None)

  /** `legacy` stands for a payload sent as codex_result. */
  datatype Envelope = Envelope(
    job: Id, run: Id, attempt: int, worker: Id, lease: Id, token: Id,
    stamp: int, legacy: bool, engine: Option<string>, artifacts: Artifacts, payload: Payload)

  datatype Run = Run(
    job: Id, worker: Id, attempt: nat, lease: Id, token: Id,
    state: RunState, claimedAt: int, expires: int, result: Option<Envelope>)

  datatype Decision = Approved | Rejected

  /** A human decision on a gate, and who made it. */
  datatype Ruling = Ruling(decision: Decision, actor: string, note: Option<string>)

  datatype GateRow = GateRow(
    decision: Decision, actor: string, note: Option<string>, sourceRun: Id, disposition: JobState, decidedAt: int)

  datatype Descriptor = Descriptor(platform: string, capabilities: set<string>, maxConcurrent: int)

  datatype State = State(
    jobs: map<Id, Job>,
    runs: map<Id, Run>,
    decisions: map<(Id, Gate), GateRow>,
    workers: map<Id, Descriptor>)

  const EMPTY_TABLES: State := State(map[], map[], map[], map[])

  // --- enqueue ------------------------------------------------------------------------------

  datatype EnqueueResult = Enqueued(id: Id) | AlreadyQueued(id: Id) | InvalidTask | IntegrityError

  ghost predicate HasKey(s: State, j: Id, key: string) {
    j in s.jobs && s.jobs[j].task.key == Some(key)
  }

  /** Whether the INSERT satisfies the table's constraints. */
  ghost predicate Insertable(s: State, id: Id, task: Task) {
    && id !in s.jobs
    && (task.key.Some? ==> forall j :: !HasKey(s, j, task.key.value))
    && (task.dependsOn.Some? ==> task.dependsOn.value in s.jobs || task.dependsOn.value == id)
  }

  ghost function Enqueue(s: State, task: Task, drawn: Id, now: int): (State, EnqueueResult) {
    if !ValidTask(task) then (s, InvalidTask)
    else if task.key.Some? && task.key.value != "" && exists j :: HasKey(s, j, task.key.value) then
      (s, AlreadyQueued(var j :| HasKey(s, j, task.key.value); j))
    else
      var id := if task.jobId.Some? then task.jobId.value else drawn;
      if Insertable(s, id, task) then (s.(jobs := s.jobs[id := Job(task, Queued, 0, None, now)]), Enqueued(id))
      else (s, IntegrityError)
  }

  // --- claim ----------------------------------------------------------------------------------

  /** What a worker is handed; `approved` is the gate context. */
  datatype Claim = Claim(job: Id, run: Id, attempt: nat, lease: Id, token: Id, task: Task, approved: set<Gate>)

  datatype ClaimResult = Claimed(claim: Claim) | NothingToClaim | UnknownWorker | ClaimError

  predicate LiveLease(run: Run, worker: Id, now: int) {
    run.worker == worker && run.state == Leased && run.expires >= now
  }

  function LiveRuns(s: State, worker: Id, now: int): set<Id> {
    set r | r in s.runs && LiveLease(s.runs[r], worker, now)
  }

  predicate Matches(d: Descriptor, worker: Id, task: Task) {
    && (task.worker.Some? ==> task.worker.value == worker)
    && d.platform == task.platform
    && task.capabilities <= d.capabilities
  }

  predicate DependencyDone(s: State, task: Task) {
    task.dependsOn.Some? ==> task.dependsOn.value in s.jobs && s.jobs[task.dependsOn.value].state == Concluded(DONE)
  }

  predicate Eligible(s: State, worker: Id, j: Id) {
    && worker in s.workers && j in s.jobs
    && s.jobs[j].state == Queued
    && DependencyDone(s, s.jobs[j].task)
    && Matches(s.workers[worker], worker, s.jobs[j].task)
  }

  /** ORDER BY created_at, job_id */
  predicate Before(s: State, j: Id, k: Id)
    requires j in s.jobs && k in s.jobs
  {
    s.jobs[j].created < s.jobs[k].created || (s.jobs[j].created == s.jobs[k].created && j <= k)
  }

  ghost predicate IsFirst(s: State, worker: Id, j: Id) {
    Eligible(s, worker, j) && forall k | Eligible(s, worker, k) :: Before(s, j, k)
  }

  /** The job the ordered query yields first. */
  ghost function Pick(s: State, worker: Id): (p: Option<Id>)
    ensures p.Some? ==> IsFirst(s, worker, p.value)
  {
    if exists j :: IsFirst(s, worker, j) then
      var j :| IsFirst(s, worker, j);
      Some(j)
    else None
  }

  function ApprovedGates(s: State, j: Id): set<Gate> {
    set k | k in s.decisions && k.0 == j && s.decisions[k].decision == Approved :: k.1
  }

  function StartRun(s: State, worker: Id, j: Id, now: int, run: Id, lease: Id, token: Id): State
    requires j in s.jobs
  {
    var attempt := s.jobs[j].attempt + 1;
    s.(jobs := s.jobs[j := s.jobs[j].(state := Running, attempt := attempt, active := Some(run))],
       runs := s.runs[run := Run(j, worker, attempt, lease, token, Leased, now, now + LEASE_DURATION_MS, None)])
  }

  function ClaimOf(s: State, j: Id, run: Id, lease: Id, token: Id): Claim
    requires j in s.jobs
  {
    Claim(j, run, s.jobs[j].attempt + 1, lease, token, s.jobs[j].task, ApprovedGates(s, j))
  }

  ghost function TakeClaim(s: State, worker: Id, now: int, run: Id, lease: Id, token: Id): (State, ClaimResult) {
    if worker !in s.workers then (s, UnknownWorker)
    else if |LiveRuns(s, worker, now)| >= s.workers[worker].maxConcurrent then (s, NothingToClaim)
    else
      var j := Pick(s, worker);
      if j.None? then (s, NothingToClaim)
      else if run in s.runs then (s, ClaimError)
      else (StartRun(s, worker, j.value, now, run, lease, token), Claimed(ClaimOf(s, j.value, run, lease, token)))
  }

  // --- leases -------------------------------------------------------------------------------------

  /** The WHERE clause of the renewal. */
  predicate Renewable(s: State, run: Id, lease: Id, token: Id, now: int) {
    run in s.runs && s.runs[run].lease == lease && s.runs[run].token == token
    && s.runs[run].state == Leased && s.runs[run].expires >= now
  }

  /** The WHERE clause of the reconciliation. */
  predicate Reclaimable(s: State, run: Id, now: int) {
    run in s.runs && s.runs[run].state == Leased && s.runs[run].expires < now
  }

  function Heartbeat(s: State, run: Id, lease: Id, token: Id, now: int): (State, bool) {
    if Renewable(s, run, lease, token, now)
    then (s.(runs := s.runs[run := s.runs[run].(expires := now + LEASE_DURATION_MS)]), true)
    else (s, false)
  }

  function Disposition(task: Task): JobState {
    if task.safeRetry then Queued else NeedsReconciliation
  }

  /** Every expired lease at once. */
  function Reconcile(s: State, now: int): State {
    s.(runs := map r | r in s.runs :: if Reclaimable(s, r, now) then s.runs[r].(state := Stale) else s.runs[r],
       jobs := map j | j in s.jobs ::
         if s.jobs[j].active.Some? && Reclaimable(s, s.jobs[j].active.value, now)
             && s.runs[s.jobs[j].active.value].job == j
         then s.jobs[j].(state := Disposition(s.jobs[j].task), active := None)
         else s.jobs[j])
  }

  // --- results ----------------------------------------------------------------------------------------

  datatype IngestResult = Accepted | Duplicate | StaleResult | RefusedResult

  predicate ValidEnvelope(env: Envelope) {
    && env.artifacts.objection.None?
    && if env.legacy then env.engine == None || env.engine == Some("codex")
       else env.engine.Some? && (env.engine.value in ENGINE_CAPABILITIES || env.engine.value in KNOWN_INTEGRATIONS)
  }

  predicate OwnsLease(run: Run, env: Envelope) {
    run.job == env.job && run.worker == env.worker && run.lease == env.lease
    && run.attempt == env.attempt && run.token == env.token
  }

  predicate EngineMatches(task: Task, env: Envelope) {
    if env.legacy && TaskEngine(task) in KNOWN_INTEGRATIONS then false
    else if env.legacy && env.engine.None? then true
    else env.engine == Some(TaskEngine(task))
  }

  function Rewritten(env: Envelope, gate: Gate): Envelope {
    env.(payload := env.payload.(
      status := BLOCKED,
      summary := "adapter re-requested already-approved human gate: " + gate,
      gate := None,
      evidence := env.payload.evidence + ["gate-policy: blocked re-request of already-approved gate " + gate]))
  }

  /** A result the gate rules accept. */
  predicate GateAllowed(task: Task, payload: Payload) {
    if payload.status == WAIT_USER then payload.gate.Some? && payload.gate.value in task.gates
    else payload.gate.None?
  }

  predicate IsApproved(s: State, j: Id, gate: Gate) {
    (j, gate) in s.decisions && s.decisions[(j, gate)].decision == Approved
  }

  /** What is stored for an accepted envelope. */
  function StoredEnvelope(s: State, env: Envelope): Envelope {
    if env.payload.status == WAIT_USER && env.payload.gate.Some? && IsApproved(s, env.job, env.payload.gate.value)
    then Rewritten(env, env.payload.gate.value)
    else env
  }

  function Store(s: State, run: Id, env: Envelope): State
    requires run in s.runs && s.runs[run].job in s.jobs
  {
    var j := s.runs[run].job;
    s.(runs := s.runs[run := s.runs[run].(state := Reported(env.payload.status), result := Some(env))],
       jobs := s.jobs[j := s.jobs[j].(state := Concluded(env.payload.status), active := None)])
  }

  function Ingest(s: State, env: Envelope): (State, IngestResult) {
    if !ValidEnvelope(env) then (s, RefusedResult)
    else if env.run in s.runs && s.runs[env.run].state.Reported? && s.runs[env.run].result == Some(env) then
      (s, Duplicate)
    else if env.run !in s.runs || s.runs[env.run].state != Leased then (s, StaleResult)
    else if !OwnsLease(s.runs[env.run], env) then (s, StaleResult)
    else if env.job !in s.jobs || s.jobs[env.job].active != Some(env.run) then (s, StaleResult)
    else if !EngineMatches(s.jobs[env.job].task, env) then (s, RefusedResult)
    else if !GateAllowed(s.jobs[env.job].task, env.payload) then (s, RefusedResult)
    else (Store(s, env.run, StoredEnvelope(s, env)), Accepted)
  }

  // --- human gates ----------------------------------------------------------------------------------------

  datatype ResolveResult = Resolved(row: GateRow) | AlreadyResolved(row: GateRow) | GateConflict | GateError

  predicate WaitingRun(s: State, j: Id, r: Id) {
    r in s.runs && s.runs[r].job == j && s.runs[r].state == Reported(WAIT_USER) && s.runs[r].result.Some?
  }

  ghost predicate IsCurrentWaiting(s: State, j: Id, r: Id) {
    WaitingRun(s, j, r) && forall q | WaitingRun(s, j, q) :: s.runs[q].attempt <= s.runs[r].attempt
  }

  /** ORDER BY attempt DESC LIMIT 1 */
  ghost function CurrentWaiting(s: State, j: Id): (p: Option<Id>)
    ensures p.Some? ==> IsCurrentWaiting(s, j, p.value)
  {
    if exists r :: IsCurrentWaiting(s, j, r) then
      var r :| IsCurrentWaiting(s, j, r);
      Some(r)
    else None
  }

  function GateDisposition(task: Task, decision: Decision): JobState {
    if decision == Approved then Disposition(task) else Cancelled
  }

  function Decide(s: State, j: Id, gate: Gate, row: GateRow): State
    requires j in s.jobs
  {
    s.(decisions := s.decisions[(j, gate) := row],
       jobs := s.jobs[j := s.jobs[j].(state := row.disposition, active := None)])
  }

  /** Who decides is named, on one line, and what is noted is short. */
  predicate ValidRuling(ruling: Ruling) {
    var actor := Strip(ruling.actor);
    && 0 < |actor| <= 128 && (forall i | 0 <= i < |actor| :: actor[i] as int >= 32)
    && (ruling.note.Some? ==> |ruling.note.value| <= 2_000 && (0 as char) !in ruling.note.value)
  }

  function RowOf(ruling: Ruling, source: Id, task: Task, now: int): GateRow {
    GateRow(ruling.decision, Strip(ruling.actor), ruling.note, source, GateDisposition(task, ruling.decision), now)
  }

  ghost function Resolve(
    s: State, j: Id, gate: Gate, ruling: Ruling, source: Option<Id>, now: int): (State, ResolveResult)
  {
    if gate == "" || !ValidRuling(ruling) || j !in s.jobs then (s, GateError)
    else if (j, gate) in s.decisions then
      var row := s.decisions[(j, gate)];
      if (source.Some? && source.value != row.sourceRun) || row.decision != ruling.decision then (s, GateConflict)
      else (s, AlreadyResolved(row))
    else if s.jobs[j].state != Concluded(WAIT_USER) then (s, GateConflict)
    else if gate !in s.jobs[j].task.gates then (s, GateError)
    else
      var current := CurrentWaiting(s, j);
      if current.None? || s.runs[current.value].result.value.payload.gate != Some(gate) then (s, GateConflict)
      else if source.Some? && source.value != current.value then (s, GateConflict)
      else
        var row := RowOf(ruling, current.value, s.jobs[j].task, now);
        (Decide(s, j, gate, row), Resolved(row))
  }

  function Register(s: State, worker: Id, d: Descriptor): State {
    s.(workers := s.workers[worker := d])
  }

  // --- runs of the controller ---------------------------------------------------------------------------------

  /** One operation; ids that the source draws at random are parameters. */
  datatype Op =
    | DoEnqueue(task: Task, drawn: Id)
    | DoClaim(worker: Id, run: Id, lease: Id, token: Id)
    | DoHeartbeat(run: Id, lease: Id, token: Id)
    | DoReconcile
    | DoIngest(env: Envelope)
    | DoResolve(job: Id, gate: Gate, ruling: Ruling, source: Option<Id>)
    | DoRegister(worker: Id, descriptor: Descriptor)

  ghost function Apply(s: State, op: Op, now: int): State {
    match op
    case DoEnqueue(task, drawn) => Enqueue(s, task, drawn, now).0
    case DoClaim(worker, run, lease, token) => TakeClaim(s, worker, now, run, lease, token).0
    case DoHeartbeat(run, lease, token) => Heartbeat(s, run, lease, token, now).0
    case DoReconcile => Reconcile(s, now)
    case DoIngest(env) => Ingest(s, env).0
    case DoResolve(job, gate, ruling, source) => Resolve(s, job, gate, ruling, source, now).0
    case DoRegister(worker, descriptor) => Register(s, worker, descriptor)
  }

  /** The state after a history of operations, each at its own clock reading. */
  ghost function After(history: seq<(Op, int)>): State {
    if history == [] then EMPTY_TABLES
    else Apply(After(history[..|history| - 1]), history[|history| - 1].0, history[|history| - 1].1)
  }
}
