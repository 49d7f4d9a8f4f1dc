/** The Hermes worker daemon (hermes_controller/worker.py): its memory, its
    state file and the envelope it builds from an adapter's result. */
module Worker {
  import opened Common
  import opened LeaseState

  datatype AdapterResult = AdapterResult(
    status: Status, summary: string, gate: Option<Gate>, evidence: seq<string>, artifacts: Artifacts)

  // --- who executes a task ---------------------------------------------------------------------------

  const KNOWN_ENGINES: set<string> := {"codex", "claude", "hybrid", "native", "brainstorm"}

  function ExecutionEngineForTask(task: Task): string {
    if task.executionEngine.Some? && task.executionEngine.value in KNOWN_ENGINES then task.executionEngine.value
    else if "codex" in task.capabilities then "codex"
    else "native"
  }

  /** The worker's label for whoever executed a task. */
  function ReportedEngine(task: Task): string {
    if GITHUB_API in task.integrations then GITHUB_API else ExecutionEngineForTask(task)
  }

  /** The worker knows the engines that the Controller does. */
  lemma SameEngines(engine: string)
    ensures engine in KNOWN_ENGINES <==> engine in ENGINE_CAPABILITIES
  {
  }

  /** Worker and Controller give a task the same label exactly when it is an
      integration, names no engine, or names a known one. */
  lemma LabelsAgreeExactlyWhen(task: Task)
    ensures ReportedEngine(task) == TaskEngine(task) <==>
              || GITHUB_API in task.integrations || task.executionEngine.None?
              || task.executionEngine.value == "" || task.executionEngine.value in KNOWN_ENGINES
  {
    hide ENGINE_CAPABILITIES;
  }

  /** So they agree on every task that passed the validator, and the label is one
      that the Controller accepts from any worker. */
  lemma LabelsAgree(task: Task)
    requires ValidTask(task)
    ensures ReportedEngine(task) == TaskEngine(task)
  {
    LabelsAgreeExactlyWhen(task);
    if task.executionEngine.Some? {
      SameEngines(task.executionEngine.value);
    }
  }

  lemma LabelIsKnown(task: Task)
    ensures ReportedEngine(task) in ENGINE_CAPABILITIES || ReportedEngine(task) in KNOWN_INTEGRATIONS
  {
    SameEngines(ExecutionEngineForTask(task));
  }

  // --- normalisation of results ---------------------------------------------------------------------

  /** The approved gates of the claim, if its gate context is well formed. */
  function ApprovedNames(claim: Claim): set<Gate> {
    if forall g | g in claim.approved :: g != "" && g in claim.task.gates then claim.approved else {}
  }

  function Blocked(result: AdapterResult, summary: string, note: string): AdapterResult {
    result.(status := BLOCKED, summary := summary, gate := None, evidence := result.evidence + [note])
  }

  function StatusName(status: Status): string {
    match status
    case DONE => "DONE"
    case WAIT_USER => "WAIT_USER"
    case BLOCKED => "BLOCKED"
    case FAILED => "FAILED"
  }

  function NormalizeGate(result: AdapterResult, claim: Claim): AdapterResult {
    if result.status == WAIT_USER then
      if result.gate.None? || result.gate.value == "" || result.gate.value !in claim.task.gates then
        var name := if result.gate.None? || result.gate.value == "" then "<missing>" else result.gate.value;
        Blocked(result, "adapter requested undeclared human gate: " + name,
                "gate-policy: rejected undeclared WAIT_USER gate " + name)
      else if result.gate.value in ApprovedNames(claim) then
        Blocked(result, "adapter re-requested already-approved human gate: " + result.gate.value,
                "gate-policy: rejected already-approved WAIT_USER gate " + result.gate.value)
      else result
    else if result.gate.Some? then
      result.(gate := None,
              evidence := result.evidence
                + ["gate-policy: ignored gate on " + StatusName(result.status) + ": " + result.gate.value])
    else result
  }

  function NormalizeArtifacts(result: AdapterResult): AdapterResult {
    if result.artifacts.objection.None? then result
    else
      result.(status := FAILED,
              summary := "adapter produced invalid artifacts: " + result.summary,
              gate := None,
              evidence := result.evidence
                + ["artifact-policy: rejected adapter artifacts: " + result.artifacts.objection.value],
              artifacts := NO_ARTIFACTS)
  }

  function Build(worker: Id, claim: Claim, raw: AdapterResult, stamp: int): Envelope {
    var result := NormalizeArtifacts(NormalizeGate(raw, claim));
    Envelope(claim.job, claim.run, claim.attempt, worker, claim.lease, claim.token, stamp, false,
             Some(ReportedEngine(claim.task)), result.artifacts,
             Payload(result.status, result.summary, result.gate, result.evidence))
  }

  /** An envelope the Controller has no reason to refuse or rewrite, if the
      claim still describes the run and its approvals. */
  ghost predicate Sound(worker: Id, claim: Claim, env: Envelope) {
    && env.job == claim.job && env.run == claim.run && env.attempt == claim.attempt
    && env.worker == worker && env.lease == claim.lease && env.token == claim.token
    && ValidEnvelope(env) && EngineMatches(claim.task, env) && GateAllowed(claim.task, env.payload)
    && (env.payload.status == WAIT_USER ==>
          env.payload.gate.value != "" && env.payload.gate.value !in ApprovedNames(claim))
  }

  /** A result that the gate rules leave alone. */
  predicate KeepsGateRules(claim: Claim, raw: AdapterResult) {
    if raw.status == WAIT_USER
    then raw.gate.Some? && raw.gate.value != "" && raw.gate.value in claim.task.gates
         && raw.gate.value !in ApprovedNames(claim)
    else raw.gate.None?
  }

  /** A result that the artifact rules leave alone, too. */
  predicate KeepsRules(claim: Claim, raw: AdapterResult) {
    KeepsGateRules(claim, raw) && raw.artifacts.objection.None?
  }

  lemma BlockedIsMarked(claim: Claim, raw: AdapterResult, summary: string, note: string)
    ensures var result := Blocked(raw, summary, note);
            KeepsGateRules(claim, result) && result.artifacts == raw.artifacts && |result.evidence| > |raw.evidence|
  {
  }

  lemma WaitIsNormal(claim: Claim, raw: AdapterResult)
    requires raw.status == WAIT_USER
    ensures IsNormal(claim, raw, NormalizeGate(raw, claim))
  {
    hide ApprovedNames, Blocked;
    var gate := if raw.gate.None? then "" else raw.gate.value;
    var name := if gate == "" then "<missing>" else gate;
    if gate == "" || gate !in claim.task.gates {
      BlockedIsMarked(claim, raw, "adapter requested undeclared human gate: " + name,
                      "gate-policy: rejected undeclared WAIT_USER gate " + name);
    } else if gate in ApprovedNames(claim) {
      BlockedIsMarked(claim, raw, "adapter re-requested already-approved human gate: " + gate,
                      "gate-policy: rejected already-approved WAIT_USER gate " + gate);
    }
  }

  /** The rules hold of `result`, which differs from `raw` by more evidence if
      they did not hold before. */
  predicate IsNormal(claim: Claim, raw: AdapterResult, result: AdapterResult) {
    && KeepsGateRules(claim, result) && result.artifacts == raw.artifacts
    && (if KeepsGateRules(claim, raw) then result == raw else |result.evidence| > |raw.evidence|)
  }

  lemma GateIsNormal(claim: Claim, raw: AdapterResult)
    ensures IsNormal(claim, raw, NormalizeGate(raw, claim))
  {
    hide ApprovedNames, StatusName, Blocked;
    if raw.status == WAIT_USER {
      WaitIsNormal(claim, raw);
      hide NormalizeGate;
    }
  }

  lemma UnchangedExactlyWhen(claim: Claim, raw: AdapterResult)
    ensures KeepsRules(claim, raw) <==> NormalizeArtifacts(NormalizeGate(raw, claim)) == raw
    ensures !KeepsRules(claim, raw) ==> |NormalizeArtifacts(NormalizeGate(raw, claim)).evidence| > |raw.evidence|
  {
    GateIsNormal(claim, raw);
    hide NormalizeGate, KeepsGateRules;
  }

  /** Whatever the adapter returns for a valid task, the envelope is sound, and a
      result is sent as it is exactly when it keeps the rules. */
  lemma BuildIsSound(worker: Id, claim: Claim, raw: AdapterResult, stamp: int)
    requires ValidTask(claim.task)
    ensures Sound(worker, claim, Build(worker, claim, raw, stamp))
    ensures KeepsRules(claim, raw) <==>
              && Build(worker, claim, raw, stamp).payload == Payload(raw.status, raw.summary, raw.gate, raw.evidence)
              && Build(worker, claim, raw, stamp).artifacts == raw.artifacts
  {
    LabelsAgree(claim.task);
    LabelIsKnown(claim.task);
    UnchangedExactlyWhen(claim, raw);
    NormalIsAllowed(claim, raw);
    hide ValidTask, ReportedEngine, TaskEngine, ENGINE_CAPABILITIES, KNOWN_INTEGRATIONS, NormalizeGate,
      NormalizeArtifacts, ApprovedNames, KeepsRules, KeepsGateRules;
  }

  lemma NormalIsAllowed(claim: Claim, raw: AdapterResult)
    ensures var result := NormalizeArtifacts(NormalizeGate(raw, claim));
            && result.artifacts.objection.None?
            && GateAllowed(claim.task, Payload(result.status, result.summary, result.gate, result.evidence))
            && (result.status == WAIT_USER ==> result.gate.value != "" && result.gate.value !in ApprovedNames(claim))
  {
    GateIsNormal(claim, raw);
    hide ApprovedNames, NormalizeGate;
  }

  // --- what the Controller is told --------------------------------------------------------------------

  /** The result asks for a human gate that the task declares, other than one that
      the claim, if its gate context is well formed, lists as approved. */
  predicate AsksProperly(claim: Claim, raw: AdapterResult) {
    && raw.status == WAIT_USER && raw.gate.Some? && raw.gate.value != "" && raw.gate.value in claim.task.gates
    && !(raw.gate.value in claim.approved && forall g | g in claim.approved :: g != "" && g in claim.task.gates)
  }

  /** Status, gate and artifacts of the envelope in terms of what the adapter
      returned and the claim: invalid artifacts make it FAILED, an improper
      request BLOCKED, and else the adapter's word stands; a gate goes only with a
      proper request, artifacts only if they are valid, and the adapter's evidence
      comes first and its summary stands where nothing was changed. */
  lemma ReportTable(worker: Id, claim: Claim, raw: AdapterResult, stamp: int)
    ensures var env := Build(worker, claim, raw, stamp); var valid := raw.artifacts.objection.None?;
            && env.payload.status == (if !valid then FAILED
                                      else if raw.status == WAIT_USER && !AsksProperly(claim, raw) then BLOCKED
                                      else raw.status)
            && env.payload.gate == (if valid && AsksProperly(claim, raw) then raw.gate else None)
            && env.artifacts == (if valid then raw.artifacts else Artifacts("", None))
            && raw.evidence <= env.payload.evidence
            && (valid && (raw.status != WAIT_USER || AsksProperly(claim, raw)) ==> env.payload.summary == raw.summary)
  {
    GateTable(claim, raw);
    hide NormalizeGate, ReportedEngine, AsksProperly;
  }

  /** Status, gate, artifacts and evidence after the gate rules. */
  predicate KeepsTable(claim: Claim, raw: AdapterResult, result: AdapterResult) {
    && result.status == (if raw.status == WAIT_USER && !AsksProperly(claim, raw) then BLOCKED else raw.status)
    && result.gate == (if AsksProperly(claim, raw) then raw.gate else None)
    && result.artifacts == raw.artifacts && raw.evidence <= result.evidence
    && (raw.status != WAIT_USER || AsksProperly(claim, raw) ==> result.summary == raw.summary)
  }

  lemma WaitTable(claim: Claim, raw: AdapterResult)
    requires raw.status == WAIT_USER
    ensures KeepsTable(claim, raw, NormalizeGate(raw, claim))
  {
    var gate := if raw.gate.None? then "" else raw.gate.value;
    var name := if gate == "" then "<missing>" else gate;
    BlockedTable(raw, "adapter requested undeclared human gate: " + name,
                 "gate-policy: rejected undeclared WAIT_USER gate " + name);
    BlockedTable(raw, "adapter re-requested already-approved human gate: " + gate,
                 "gate-policy: rejected already-approved WAIT_USER gate " + gate);
    hide Blocked, StatusName;
  }

  lemma GateTable(claim: Claim, raw: AdapterResult)
    ensures KeepsTable(claim, raw, NormalizeGate(raw, claim))
  {
    hide Blocked, StatusName, ApprovedNames;
    if raw.status == WAIT_USER {
      WaitTable(claim, raw);
      hide NormalizeGate, AsksProperly;
    }
  }

  lemma BlockedTable(raw: AdapterResult, summary: string, note: string)
    ensures Blocked(raw, summary, note) ==
              AdapterResult(BLOCKED, summary, None, raw.evidence + [note], raw.artifacts)
  {
  }

  /** Why a gate was taken away from the result, if it was: the note that joins the
      evidence, and the summary that replaces the adapter's for an improper request. */
  predicate GateTexts(claim: Claim, raw: AdapterResult, summary: string, notes: seq<string>) {
    var gate := if raw.gate.None? || raw.gate.value == "" then "<missing>" else raw.gate.value;
    if raw.status != WAIT_USER then
      && summary == raw.summary && |notes| == (if raw.gate.Some? then 1 else 0)
      && (raw.gate.Some? ==>
            notes[0] == "gate-policy: ignored gate on " + StatusName(raw.status) + ": " + raw.gate.value)
    else if AsksProperly(claim, raw) then summary == raw.summary && notes == []
    else if raw.gate.None? || raw.gate.value == "" || raw.gate.value !in claim.task.gates then
      && summary == "adapter requested undeclared human gate: " + gate
      && notes == ["gate-policy: rejected undeclared WAIT_USER gate " + gate]
    else
      && summary == "adapter re-requested already-approved human gate: " + gate
      && notes == ["gate-policy: rejected already-approved WAIT_USER gate " + gate]
  }

  /** The texts of the envelope: the adapter's own where the rules were kept, and
      else the reasons, first for the gate and then for the artifacts. */
  lemma ReportTexts(worker: Id, claim: Claim, raw: AdapterResult, stamp: int) returns (
      summary: string, notes: seq<string>)
    ensures GateTexts(claim, raw, summary, notes)
    ensures var payload, objection := Build(worker, claim, raw, stamp).payload, raw.artifacts.objection;
            if objection.None? then payload.summary == summary && payload.evidence == raw.evidence + notes
            else
              && payload.summary == "adapter produced invalid artifacts: " + summary
              && payload.evidence ==
                   raw.evidence + notes + ["artifact-policy: rejected adapter artifacts: " + objection.value]
  {
    summary, notes := GateSays(claim, raw);
    GateTable(claim, raw);
    hide GateTexts, NormalizeGate, ReportedEngine, KeepsGateRules;
  }

  lemma GateSays(claim: Claim, raw: AdapterResult) returns (summary: string, notes: seq<string>)
    ensures GateTexts(claim, raw, summary, notes)
    ensures var result := NormalizeGate(raw, claim);
            result.summary == summary && result.evidence == raw.evidence + notes
  {
    hide StatusName;
    if raw.status == WAIT_USER {
      summary, notes := WaitSays(claim, raw);
    } else {
      hide AsksProperly, ApprovedNames;
      summary := raw.summary;
      notes := if raw.gate.None? then []
               else ["gate-policy: ignored gate on " + StatusName(raw.status) + ": " + raw.gate.value];
    }
  }

  lemma WaitSays(claim: Claim, raw: AdapterResult) returns (summary: string, notes: seq<string>)
    requires raw.status == WAIT_USER
    ensures GateTexts(claim, raw, summary, notes)
    ensures var result := NormalizeGate(raw, claim);
            result.summary == summary && result.evidence == raw.evidence + notes
  {
    var gate := if raw.gate.None? || raw.gate.value == "" then "<missing>" else raw.gate.value;
    if AsksProperly(claim, raw) {
      summary, notes := raw.summary, [];
    } else if raw.gate.None? || raw.gate.value == "" || raw.gate.value !in claim.task.gates {
      summary := "adapter requested undeclared human gate: " + gate;
      notes := ["gate-policy: rejected undeclared WAIT_USER gate " + gate];
    } else {
      summary := "adapter re-requested already-approved human gate: " + gate;
      notes := ["gate-policy: rejected already-approved WAIT_USER gate " + gate];
    }
  }

  /** DONE is reported exactly when the adapter was done and its artifacts are in
      order, and FAILED exactly when it failed or they are not. */
  lemma DoneExactlyWhen(worker: Id, claim: Claim, raw: AdapterResult, stamp: int)
    ensures var status := Build(worker, claim, raw, stamp).payload.status;
            && (status == DONE <==> raw.status == DONE && raw.artifacts.objection.None?)
            && (status == FAILED <==> raw.status == FAILED || raw.artifacts.objection.Some?)
            && (status == WAIT_USER <==> AsksProperly(claim, raw) && raw.artifacts.objection.None?)
  {
    ReportTable(worker, claim, raw, stamp);
    hide Build;
  }

  /** What the envelope says besides: who ran what, under which lease. */
  lemma ReportNames(worker: Id, claim: Claim, raw: AdapterResult, stamp: int)
    ensures var env := Build(worker, claim, raw, stamp);
            && env.job == claim.job && env.run == claim.run && env.attempt == claim.attempt && env.worker == worker
            && env.lease == claim.lease && env.token == claim.token && env.stamp == stamp && !env.legacy
            && env.engine.Some?
            && (GITHUB_API in claim.task.integrations ==> env.engine.value == "github_api")
            && var own, explicit := GITHUB_API !in claim.task.integrations, claim.task.executionEngine;
               && (own && explicit.Some? && explicit.value in KNOWN_ENGINES ==> env.engine == explicit)
               && (own && explicit.None? ==>
                     env.engine.value == if "codex" in claim.task.capabilities then "codex" else "native")
  {
    hide NormalizeGate, NormalizeArtifacts;
  }

  /** A valid task asks for every capability that its executor needs. */
  lemma ExecutorIsCapable(task: Task)
    requires ValidTask(task)
    ensures ReportedEngine(task) == "github_api" <==> "github_api" in task.capabilities
    ensures var engine := ReportedEngine(task);
            if engine == "github_api" then "github_api" in task.capabilities
            else engine in ENGINE_CAPABILITIES && ENGINE_CAPABILITIES[engine] <= task.capabilities
  {
    if task.executionEngine.Some? {
      SameEngines(task.executionEngine.value);
    }
    hide KNOWN_ENGINES;
  }

  // --- the daemon as a small state machine -------------------------------------------------------------

  datatype Saved = Saved(claim: Claim, pending: Option<Envelope>)

  /** Where `once` stands: before it looks for work, with a claim in memory that
      is not yet on disk, running the adapter, with an envelope that is not yet
      on disk, waiting for the reply, with a state file left to remove. */
  datatype Phase = Start | Held | Executing | Written | Sending | Clearing

  datatype Daemon = Daemon(active: Option<Claim>, pending: Option<Envelope>, file: Option<Saved>, phase: Phase)

  const FRESH_DAEMON: Daemon := Daemon(None, None, None, Start)

  datatype Action =
    | Adopt(claim: Claim)
    | Resume
    | Save
    | Finish(result: AdapterResult, stamp: int)
    | Send
    | Clear
    | Unlink
    | Retry
    | Restart

  predicate Can(d: Daemon, action: Action) {
    match action
    case Adopt(claim) => d.phase == Start && d.active.None?
    case Resume => d.phase == Start && d.active.Some?
    case Save => (d.phase == Held || d.phase == Written) && d.active.Some?
    case Finish(result, stamp) => d.phase == Executing && d.active.Some?
    case Send => d.phase == Sending && d.pending.Some?
    case Clear => d.phase == Executing || d.phase == Sending
    case Unlink => d.phase == Clearing
    case Retry => d.phase == Sending
    case Restart => true
  }

  /** One step of the daemon `worker`. */
  function Act(worker: Id, d: Daemon, action: Action): Daemon
    requires Can(d, action)
  {
    match action
    case Adopt(claim) => d.(active := Some(claim), phase := Held)
    case Resume => d.(phase := Held)
    case Save =>
      d.(file := Some(Saved(d.active.value, d.pending)), phase := if d.pending.Some? then Sending else Executing)
    case Finish(result, stamp) => d.(pending := Some(Build(worker, d.active.value, result, stamp)), phase := Written)
    case Send => d
    case Clear => d.(active := None, pending := None, phase := Clearing)
    case Unlink => d.(file := None, phase := Start)
    case Retry => d.(phase := Start)
    case Restart =>
      if d.file.Some? then Daemon(Some(d.file.value.claim), d.file.value.pending, d.file, Start) else FRESH_DAEMON
  }

  /** The memory is never ahead of the disk where it matters: an envelope may be
      sent only when it is the one in the state file. */
  ghost predicate Ordered(d: Daemon) {
    && (d.active.None? ==> d.pending.None?)
    && match d.phase
       case Start => d.file == if d.active.Some? then Some(Saved(d.active.value, d.pending)) else None
       case Held =>
         d.active.Some? && (d.file == Some(Saved(d.active.value, d.pending)) || (d.file.None? && d.pending.None?))
       case Executing => d.active.Some? && d.pending.None? && d.file == Some(Saved(d.active.value, None))
       case Written => d.active.Some? && d.pending.Some? && d.file == Some(Saved(d.active.value, None))
       case Sending => d.active.Some? && d.pending.Some? && d.file == Some(Saved(d.active.value, d.pending))
       case Clearing => d.active.None? && d.file.Some?
  }

  lemma ActKeepsOrder(worker: Id, d: Daemon, action: Action)
    requires Ordered(d) && Can(d, action)
    ensures Ordered(Act(worker, d, action))
  {
  }

  // --- `once`, step by step --------------------------------------------------------------------------------

  datatype Reply<T> = Answer(value: T) | Conflict | TransportError

  /** How the adapter ends: with a result, or without one. */
  datatype Execution = Result(result: AdapterResult) | NoResult

  /** What the world answers during one call of `once`. */
  datatype Network = Network(
    alive: Reply<()>,
    claim: Reply<Option<Claim>>,
    heartbeats: seq<Reply<()>>,
    execution: Execution,
    stamp: int,
    ingest: Reply<()>)

  datatype Outcome = Worked | Idle | Failed | Crashed

  function Transitions(worker: Id, d: Daemon, actions: seq<Action>): Daemon
    requires Enabled(worker, d, actions)
    decreases |actions|
  {
    if actions == [] then d else Transitions(worker, Act(worker, d, actions[0]), actions[1..])
  }

  predicate Enabled(worker: Id, d: Daemon, actions: seq<Action>)
    decreases |actions|
  {
    actions == [] || (Can(d, actions[0]) && Enabled(worker, Act(worker, d, actions[0]), actions[1..]))
  }

  lemma {:induction false} TransitionsSnoc(worker: Id, d: Daemon, actions: seq<Action>, action: Action)
    requires Enabled(worker, d, actions) && Can(Transitions(worker, d, actions), action)
    ensures Enabled(worker, d, actions + [action])
    ensures Transitions(worker, d, actions + [action]) == Act(worker, Transitions(worker, d, actions), action)
    decreases |actions|
  {
    if actions == [] {
      assert [] + [action] == [action];
    } else {
      TransitionsSnoc(worker, Act(worker, d, actions[0]), actions[1..], action);
      assert (actions + [action])[1..] == actions[1..] + [action];
    }
  }

  /** How a call ends once it has sent an envelope. */
  function AfterReply(reply: Reply<()>): seq<Action> {
    if reply.TransportError? then [Retry] else [Clear, Unlink]
  }

  function WorkActions(net: Network): seq<Action> {
    if Conflict in net.heartbeats then [Clear, Unlink]
    else if net.execution.NoResult? then []
    else [Finish(net.execution.result, net.stamp), Save, Send] + AfterReply(net.ingest)
  }

  /** What one call of `once` does, as steps of the daemon. */
  function OnceActions(d: Daemon, net: Network): seq<Action> {
    if !net.alive.Answer? then []
    else if d.active.None? && (!net.claim.Answer? || net.claim.value.None?) then []
    else
      [if d.active.Some? then Resume else Adopt(net.claim.value.value), Save]
      + if d.pending.Some? then [Send] + AfterReply(net.ingest) else WorkActions(net)
  }

  lemma {:induction false} TransitionsSplit(worker: Id, d: Daemon, actions: seq<Action>, n: nat)
    requires n <= |actions| && Enabled(worker, d, actions)
    ensures Enabled(worker, d, actions[..n]) && Enabled(worker, Transitions(worker, d, actions[..n]), actions[n..])
    ensures Transitions(worker, Transitions(worker, d, actions[..n]), actions[n..]) == Transitions(worker, d, actions)
    decreases n
  {
    if n == 0 {
      assert actions[..0] == [] && actions[0..] == actions;
    } else {
      TransitionsSplit(worker, Act(worker, d, actions[0]), actions[1..], n - 1);
      assert actions[..n] == [actions[0]] + actions[1..][..n - 1] && actions[n..] == actions[1..][n - 1..];
    }
  }

  lemma {:induction false} OrderIsKept(worker: Id, d: Daemon, actions: seq<Action>)
    requires Ordered(d) && Enabled(worker, d, actions)
    ensures Ordered(Transitions(worker, d, actions))
    decreases |actions|
  {
    if actions != [] {
      ActKeepsOrder(worker, d, actions[0]);
      OrderIsKept(worker, Act(worker, d, actions[0]), actions[1..]);
    }
  }

  lemma {:induction false} FileStays(worker: Id, d: Daemon, actions: seq<Action>)
    requires Ordered(d) && Enabled(worker, d, actions) && d.file.Some? && Unlink !in actions
    ensures var file := Transitions(worker, d, actions).file;
            && file.Some? && file.value.claim == d.file.value.claim
            && (d.file.value.pending.Some? ==> file == d.file)
    decreases |actions|
  {
    if actions != [] {
      ActKeepsOrder(worker, d, actions[0]);
      FileStays(worker, Act(worker, d, actions[0]), actions[1..]);
    }
  }

  /** What has been saved is what a restart finds, wherever it cuts in, until the
      file has been removed: the claim, and the envelope once there is one. */
  lemma RestartFindsSaved(worker: Id, d: Daemon, actions: seq<Action>, n: nat)
    requires Ordered(d) && Enabled(worker, d, actions)
    requires n < |actions| && actions[n] == Save && Unlink !in actions[n..]
    ensures Enabled(worker, d, actions[..n]) && Transitions(worker, d, actions[..n]).active.Some?
    ensures var saved, found := Transitions(worker, d, actions[..n]),
            Act(worker, Transitions(worker, d, actions), Restart);
            && found.active == saved.active && found.phase == Start
            && (saved.pending.Some? ==> found.pending == saved.pending)
  {
    hide Build;
    TransitionsSplit(worker, d, actions, n);
    OrderIsKept(worker, d, actions[..n]);
    var saved := Transitions(worker, d, actions[..n]);
    hide Ordered;
    assert actions[n..][0] == Save && actions[n..][1..] == actions[n + 1..];
    ActKeepsOrder(worker, saved, Save);
    FileStays(worker, Act(worker, saved, Save), actions[n + 1..]);
  }

  /** An envelope that has been sent is the one that a restart sends again. */
  lemma RestartFindsSent(worker: Id, d: Daemon, actions: seq<Action>, n: nat)
    requires Ordered(d) && Enabled(worker, d, actions)
    requires n < |actions| && actions[n] == Send && Unlink !in actions[n..]
    ensures Enabled(worker, d, actions[..n]) && Transitions(worker, d, actions[..n]).pending.Some?
    ensures Act(worker, Transitions(worker, d, actions), Restart).pending ==
            Transitions(worker, d, actions[..n]).pending
  {
    hide Build;
    TransitionsSplit(worker, d, actions, n);
    OrderIsKept(worker, d, actions[..n]);
    var sent := Transitions(worker, d, actions[..n]);
    assert actions[n..][0] == Send && actions[n..][1..] == actions[n + 1..];
    FileStays(worker, sent, actions[n + 1..]);
  }

  class WorkerDaemon {
    const worker: Id
    var activeClaim: Option<Claim>
    var pendingEnvelope: Option<Envelope>
    var stateFile: Option<Saved>
    ghost var phase: Phase
    ghost var actions: seq<Action>
    ghost var started: Daemon

    ghost function Model(): Daemon
      reads this
    {
      Daemon(activeClaim, pendingEnvelope, stateFile, phase)
    }

    /** The steps taken since the call began lead to the present state. */
    ghost predicate Tracked()
      reads this
    {
      Enabled(worker, started, actions) && Transitions(worker, started, actions) == Model()
    }

    /** A daemon starts from what its state file holds. */
    constructor (worker: Id, file: Option<Saved>)
      ensures this.worker == worker && stateFile == file
      ensures Model() == Act(worker, Daemon(None, None, file, Start), Restart)
    {
      this.worker := worker;
      stateFile := file;
      activeClaim := if file.Some? then Some(file.value.claim) else None;
      pendingEnvelope := if file.Some? then file.value.pending else None;
      phase, actions, started := Start, [], FRESH_DAEMON;
    }

    ghost method Step(action: Action)
      requires Enabled(worker, started, actions)
      requires Can(Transitions(worker, started, actions), action)
      requires Act(worker, Transitions(worker, started, actions), action).(phase := phase) == Model()
      modifies this`phase, this`actions
      ensures Tracked() && actions == old(actions) + [action]
      ensures Model() == Act(worker, old(Transitions(worker, started, actions)), action)
    {
      TransitionsSnoc(worker, started, actions, action);
      phase := Act(worker, Transitions(worker, started, actions), action).phase;
      actions := actions + [action];
    }

    method SaveState(claim: Option<Claim>, pending: Option<Envelope>)
      modifies this`stateFile
      ensures stateFile == if claim.Some? then Some(Saved(claim.value, pending)) else None
    {
      stateFile := if claim.Some? then Some(Saved(claim.value, pending)) else None;
    }

    method Forget()
      requires Tracked() && Can(Model(), Clear)
      modifies this
      ensures started == old(started) && actions == old(actions) + [Clear, Unlink]
      ensures Tracked() && Model() == FRESH_DAEMON
    {
      pendingEnvelope := None;
      activeClaim := None;
      Step(Clear);
      SaveState(None, None);
      Step(Unlink);
      assert actions == old(actions) + [Clear, Unlink];
    }

    /** Hands the pending envelope to the network and acts on the reply. */
    method Deliver(reply: Reply<()>) returns (outcome: Outcome, sent: Envelope)
      requires Tracked() && phase == Sending && pendingEnvelope.Some?
      modifies this
      ensures started == old(started) && actions == old(actions) + [Send] + AfterReply(reply)
      ensures Tracked() && Some(sent) == old(pendingEnvelope)
      ensures outcome == if reply.TransportError? then Failed else Worked
      ensures Model() == if reply.TransportError? then old(Model()).(phase := Start) else FRESH_DAEMON
    {
      sent := pendingEnvelope.value;
      Step(Send);
      if reply.TransportError? {
        Step(Retry);
        outcome := Failed;
      } else {
        Forget();
        outcome := Worked;
      }
      assert actions == old(actions) + [Send] + AfterReply(reply);
    }

    /** The heartbeats sent while the adapter runs. */
    method KeepAlive(heartbeats: seq<Reply<()>>) returns (lost: bool)
      ensures lost <==> Conflict in heartbeats
    {
      lost := false;
      for i := 0 to |heartbeats|
        invariant !lost && Conflict !in heartbeats[..i]
      {
        if heartbeats[i].Conflict? {
          lost := true;
          return;
        }
      }
    }

    /** Takes up the claim in memory, or a new one, and writes it down. */
    method Take(reply: Reply<Option<Claim>>)
      requires Tracked() && phase == Start && Ordered(Model()) && actions == []
      requires activeClaim.Some? || (reply.Answer? && reply.value.Some?)
      modifies this
      ensures started == old(started) && Tracked() && Ordered(Model())
      ensures actions == [if old(activeClaim).Some? then Resume else Adopt(reply.value.value), Save]
      ensures activeClaim == if old(activeClaim).Some? then old(activeClaim) else reply.value
      ensures pendingEnvelope == old(pendingEnvelope) && phase == if pendingEnvelope.Some? then Sending else Executing
    {
      hide Transitions, Enabled;
      if activeClaim.None? {
        activeClaim := reply.value;
        Step(Adopt(activeClaim.value));
      } else {
        Step(Resume);
      }
      SaveState(activeClaim, pendingEnvelope);
      Step(Save);
    }

    /** Writes the envelope down before it is sent. */
    method Record(result: AdapterResult, stamp: int)
      requires Tracked() && phase == Executing && Ordered(Model())
      modifies this
      ensures started == old(started) && Tracked() && Ordered(Model())
      ensures actions == old(actions) + [Finish(result, stamp), Save]
      ensures phase == Sending && pendingEnvelope == Some(Build(worker, old(activeClaim).value, result, stamp))
    {
      hide Transitions, Enabled, Build;
      pendingEnvelope := Some(Build(worker, activeClaim.value, result, stamp));
      Step(Finish(result, stamp));
      SaveState(activeClaim, pendingEnvelope);
      Step(Save);
    }

    /** Runs the adapter and sends what it returns. */
    method Work(net: Network) returns (outcome: Outcome, sent: seq<Envelope>)
      requires Tracked() && phase == Executing && Ordered(Model())
      modifies this
      ensures started == old(started) && Tracked() && Ordered(Model())
      ensures outcome != Crashed ==> phase == Start
      ensures outcome == if Conflict in net.heartbeats then Worked
                         else if net.execution.NoResult? then Crashed
                         else if net.ingest.TransportError? then Failed
                         else Worked
      ensures outcome == Worked <==> activeClaim.None?
      ensures actions == old(actions) + WorkActions(net)
      ensures sent == if Send in WorkActions(net)
                      then [Build(worker, old(activeClaim).value, net.execution.result, net.stamp)] else []
    {
      hide Transitions, Enabled, Build;
      var lost := KeepAlive(net.heartbeats);
      if lost {
        Forget();
        return Worked, [];
      }
      if net.execution.NoResult? {
        return Crashed, [];
      }
      Record(net.execution.result, net.stamp);
      var envelope;
      outcome, envelope := Deliver(net.ingest);
      sent := [envelope];
    }

    method Once(net: Network) returns (outcome: Outcome, sent: seq<Envelope>)
      requires phase == Start && Ordered(Model())
      modifies this
      ensures started == old(Model()) && actions == OnceActions(old(Model()), net)
      ensures Tracked() && Ordered(Model())
      ensures outcome != Crashed ==> phase == Start
      ensures outcome == Idle <==> net.alive.Answer? && started.active.None? && net.claim == Answer(None)
      ensures outcome == Crashed <==> HasClaim(started, net) && Send !in actions && Conflict !in net.heartbeats
      ensures outcome == Worked <==> HasClaim(started, net) && phase == Start && activeClaim.None?
      ensures sent == if Send in actions then [SentBy(worker, started, net)] else []
    {
      started, actions, sent := Model(), [], [];
      if !net.alive.Answer? {
        return Failed, [];
      }
      hide Transitions, Enabled;
      if activeClaim.None? && !net.claim.Answer? {
        return Failed, [];
      }
      if activeClaim.None? && net.claim.value.None? {
        return Idle, [];
      }
      Take(net.claim);
      if pendingEnvelope.Some? {
        var envelope;
        outcome, envelope := Deliver(net.ingest);
        sent := [envelope];
      } else {
        outcome, sent := Work(net);
      }
    }
  }

  /** A claim is at hand once the Controller has answered. */
  predicate HasClaim(d: Daemon, net: Network) {
    net.alive.Answer? && (d.active.Some? || (net.claim.Answer? && net.claim.value.Some?))
  }

  /** Where one call leaves the daemon.  It sends what was pending, or else runs the
      adapter unless that ends in nothing; it forgets claim and file exactly on an
      answer to its envelope, 200 or 409, or when a heartbeat met a 409; and it
      keeps the envelope for the next call when no answer came. */
  lemma OnceEnds(worker: Id, d: Daemon, net: Network)
    requires d.phase == Start && Ordered(d) && Enabled(worker, d, OnceActions(d, net))
    ensures var end := Transitions(worker, d, OnceActions(d, net));
            if !HasClaim(d, net) then end == d
            else
              var claim := if d.active.Some? then d.active.value else net.claim.value.value;
              var lost, none := Conflict in net.heartbeats, net.execution.NoResult?;
              if d.pending.Some? then
                end == if net.ingest.TransportError? then d else Daemon(None, None, None, Start)
              else if lost then end == Daemon(None, None, None, Start)
              else if none then end == Daemon(Some(claim), None, Some(Saved(claim, None)), Executing)
              else
                var env := Build(worker, claim, net.execution.result, net.stamp);
                end == if net.ingest.TransportError?
                    then Daemon(Some(claim), Some(env), Some(Saved(claim, Some(env))), Start)
                       else Daemon(None, None, None, Start)
  {
    hide Build;
    if HasClaim(d, net) {
      var first := if d.active.Some? then Resume else Adopt(net.claim.value.value);
      var rest := if d.pending.Some? then [Send] + AfterReply(net.ingest) else WorkActions(net);
      assert OnceActions(d, net) == [first] + ([Save] + rest);
      FirstStep(worker, d, first, [Save] + rest);
      FirstStep(worker, Act(worker, d, first), Save, rest);
      var e := Act(worker, Act(worker, d, first), Save);
      if d.pending.Some? {
        SendSteps(worker, e, net.ingest);
      } else {
        WorkSteps(worker, e, net);
      }
    }
  }

  lemma FirstStep(worker: Id, d: Daemon, action: Action, rest: seq<Action>)
    requires Enabled(worker, d, [action] + rest)
    ensures Can(d, action) && Enabled(worker, Act(worker, d, action), rest)
    ensures Transitions(worker, d, [action] + rest) == Transitions(worker, Act(worker, d, action), rest)
  {
    hide Act, Can;
    assert ([action] + rest)[1..] == rest;
  }

  lemma ForgetSteps(worker: Id, e: Daemon)
    requires Enabled(worker, e, [Clear, Unlink])
    ensures Transitions(worker, e, [Clear, Unlink]) == Daemon(None, None, None, Start)
  {
    hide Build;
    assert [Clear, Unlink] == [Clear] + [Unlink] && [Unlink] == [Unlink] + [];
    FirstStep(worker, e, Clear, [Unlink]);
    FirstStep(worker, Act(worker, e, Clear), Unlink, []);
  }

  lemma SendSteps(worker: Id, e: Daemon, reply: Reply<()>)
    requires Enabled(worker, e, [Send] + AfterReply(reply))
    ensures Transitions(worker, e, [Send] + AfterReply(reply)) ==
              if reply.TransportError? then e.(phase := Start) else Daemon(None, None, None, Start)
  {
    hide Build;
    FirstStep(worker, e, Send, AfterReply(reply));
    if reply.TransportError? {
      assert [Retry] == [Retry] + [];
      FirstStep(worker, e, Retry, []);
    } else {
      ForgetSteps(worker, e);
    }
  }

  lemma WorkSteps(worker: Id, e: Daemon, net: Network)
    requires e.active.Some? && e.phase == Executing && e.pending.None? && Enabled(worker, e, WorkActions(net))
    ensures var end := Transitions(worker, e, WorkActions(net));
            if Conflict in net.heartbeats then end == Daemon(None, None, None, Start)
            else if net.execution.NoResult? then end == e
            else
              var env := Build(worker, e.active.value, net.execution.result, net.stamp);
              end == if net.ingest.TransportError?
                     then Daemon(e.active, Some(env), Some(Saved(e.active.value, Some(env))), Start)
                     else Daemon(None, None, None, Start)
  {
    hide Build;
    if Conflict in net.heartbeats {
      ForgetSteps(worker, e);
    } else if net.execution.Result? {
      var finish, rest := Finish(net.execution.result, net.stamp), [Send] + AfterReply(net.ingest);
      assert WorkActions(net) == [finish] + ([Save] + rest);
      FirstStep(worker, e, finish, [Save] + rest);
      FirstStep(worker, Act(worker, e, finish), Save, rest);
      SendSteps(worker, Act(worker, Act(worker, e, finish), Save), net.ingest);
    }
  }

  /** The envelope a call sends, if it sends one: the one left over from an
      earlier call, or else a new one. */
  function SentBy(worker: Id, d: Daemon, net: Network): Envelope
    requires Send in OnceActions(d, net)
  {
    if d.pending.Some? then d.pending.value
    else
      var claim := if d.active.Some? then d.active.value else net.claim.value.value;
      Build(worker, claim, net.execution.result, net.stamp)
  }
}
