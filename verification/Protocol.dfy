/** The Controller and its worker daemons, joined by a network that loses,
    delays, reorders and duplicates, with daemons that may stop at any point. */
module Protocol {
  import opened Common
  import opened LeaseState
  import opened LeaseInvariants
  import opened LeaseTheorems
  import W = Worker

  /** `issued` remembers every claim handed out, `replies` those whose reply is
      still under way, `sent` every envelope ever put on the network, `answered`
      those to which some 200 or 409 has come back, `kept` every run whose claim
      has reached a state file. */
  datatype World = World(
    tables: State, clock: int, issued: map<Id, Claim>, replies: set<Id>,
    daemons: map<Id, W.Daemon>, sent: set<Envelope>, answered: set<Envelope>, kept: set<Id>)

  const INITIAL_WORLD: World := World(EMPTY_TABLES, 0, map[], {}, map[], {}, {}, {})

  function DaemonOf(w: World, worker: Id): W.Daemon {
    if worker in w.daemons then w.daemons[worker] else W.FRESH_DAEMON
  }

  datatype Step =
    | Operate(op: Op)
    | HandleClaim(worker: Id, run: Id, lease: Id, token: Id)
    | Deliver(env: Envelope)
    | Local(worker: Id, action: W.Action)
    | Tick(later: int)

  /** A daemon adopts only a claim made out to it, and forgets one only on an
      answer: to its envelope, or to a renewal that failed. */
  predicate Allowed(w: World, step: Step) {
    match step
    case Operate(op) => !op.DoClaim? && !op.DoIngest?
    case HandleClaim(worker, run, lease, token) => true
    case Deliver(env) => env in w.sent
    case Local(worker, action) =>
      var d := DaemonOf(w, worker);
      && W.Can(d, action)
      && (action.Adopt? ==>
            var c := action.claim;
            c.run in w.replies && c.run in w.issued && w.issued[c.run] == c && c.run in w.tables.runs
                && w.tables.runs[c.run].worker == worker)
      && (action.Clear? && d.phase == W.Sending ==> d.pending.Some? && d.pending.value in w.answered)
      && (action.Clear? && d.phase == W.Executing ==>
            d.active.Some? && !Renewable(w.tables, d.active.value.run, d.active.value.lease, d.active.value.token,
                w.clock))
    case Tick(later) => w.clock <= later
  }

  function ActIn(w: World, worker: Id, action: W.Action): World
    requires Allowed(w, Local(worker, action))
  {
    var d := DaemonOf(w, worker);
    w.(daemons := w.daemons[worker := W.Act(worker, d, action)],
       replies := if action.Adopt? then w.replies - {action.claim.run} else w.replies,
       sent := if action.Send? then w.sent + {d.pending.value} else w.sent,
       kept := if action.Save? then w.kept + {d.active.value.run} else w.kept)
  }

  /** A step that is not allowed does not happen. */
  ghost function Next(w: World, step: Step): World {
    if !Allowed(w, step) then w
    else
      match step
      case Operate(op) => w.(tables := Apply(w.tables, op, w.clock))
      case HandleClaim(worker, run, lease, token) =>
        var (tables, outcome) := TakeClaim(w.tables, worker, w.clock, run, lease, token);
        if outcome.Claimed?
        then w.(tables := tables, issued := w.issued[run := outcome.claim], replies := w.replies + {run})
        else w
      case Deliver(env) =>
        var (tables, outcome) := Ingest(w.tables, env);
        w.(tables := tables, answered := if outcome == RefusedResult then w.answered else w.answered + {env})
      case Local(worker, action) => ActIn(w, worker, action)
      case Tick(later) => w.(clock := later)
  }

  ghost function Reached(steps: seq<Step>): World {
    if steps == [] then INITIAL_WORLD else Next(Reached(steps[..|steps| - 1]), steps[|steps| - 1])
  }

  // --- the invariant -------------------------------------------------------------------------------

  /** The claim describes the run and, while it runs, the approvals of its job. */
  ghost predicate Agrees(s: State, r: Id, c: Claim) {
    && r in s.runs && s.runs[r].job in s.jobs
    && c.run == r && c.job == s.runs[r].job && c.attempt == s.runs[r].attempt
    && c.lease == s.runs[r].lease && c.token == s.runs[r].token
    && c.task == s.jobs[c.job].task
    && (s.runs[r].state == Leased ==> c.approved == ApprovedGates(s, c.job))
  }

  ghost predicate AllIssued(w: World) {
    && w.issued.Keys == w.tables.runs.Keys && w.replies <= w.issued.Keys
    && forall r | r in w.issued :: Agrees(w.tables, r, w.issued[r])
  }

  ghost predicate Owns(w: World, worker: Id, c: Claim) {
    c.run in w.issued && w.issued[c.run] == c && c.run in w.tables.runs && w.tables.runs[c.run].worker == worker
        && c.run !in w.replies
  }

  ghost predicate SoundIf(worker: Id, c: Claim, pending: Option<Envelope>) {
    pending.Some? ==> W.Sound(worker, c, pending.value)
  }

  ghost predicate WellKept(w: World, worker: Id) {
    var d := DaemonOf(w, worker);
    && W.Ordered(d)
    && (d.active.Some? ==> Owns(w, worker, d.active.value) && SoundIf(worker, d.active.value, d.pending))
    && (d.file.Some? ==>
          Owns(w, worker, d.file.value.claim) && SoundIf(worker, d.file.value.claim, d.file.value.pending))
    && (d.phase == W.Clearing && d.file.Some? ==> Lapsed(w.tables, d.file.value.claim.run, w.clock))
  }

  ghost predicate DaemonsKeep(w: World) {
    forall worker :: WellKept(w, worker)
  }

  /** As long as the daemon has the claim, it has this envelope for it. */
  predicate Remembered(d: W.Daemon, env: Envelope) {
    && (d.active.Some? && d.active.value.run == env.run ==> d.pending == Some(env))
    && (d.file.Some? && d.file.value.claim.run == env.run ==> d.file.value.pending == Some(env))
  }

  ghost predicate WellSent(w: World, env: Envelope) {
    && env.run in w.issued && env.run !in w.replies
    && env.run in w.tables.runs && w.tables.runs[env.run].worker == env.worker
    && W.Sound(env.worker, w.issued[env.run], env)
    && Remembered(DaemonOf(w, env.worker), env)
  }

  ghost predicate AllSent(w: World) {
    forall env | env in w.sent :: WellSent(w, env)
  }

  ghost predicate OneEach(w: World) {
    forall env, other | env in w.sent && other in w.sent && env.run == other.run :: env == other
  }

  ghost predicate Stored(w: World) {
    forall r | r in w.tables.runs && w.tables.runs[r].state.Reported? ::
      exists env :: env in w.sent && env.run == r && w.tables.runs[r].result == Some(env)
  }

  ghost predicate Answers(w: World) {
    forall env | env in w.answered :: env in w.sent && Settled(w.tables, env.run)
  }

  ghost predicate InFile(w: World, r: Id)
    requires r in w.tables.runs
  {
    var file := DaemonOf(w, w.tables.runs[r].worker).file;
    file.Some? && file.value.claim.run == r
  }

  ghost predicate Kept(w: World) {
    forall r | r in w.kept :: r in w.tables.runs && (Lapsed(w.tables, r, w.clock) || InFile(w, r))
  }

  ghost predicate Safe(w: World) {
    && Inv(w.tables) && AllIssued(w) && DaemonsKeep(w)
    && AllSent(w) && OneEach(w) && Stored(w) && Answers(w) && Kept(w)
  }

  // --- operations that neither start nor report runs ---------------------------------------------------

  ghost predicate KeepsRun(s: State, t: State, r: Id, now: int)
    requires r in s.runs
  {
    && r in t.runs
    && t.runs[r].job == s.runs[r].job && t.runs[r].worker == s.runs[r].worker && t.runs[r].attempt == s.runs[r].attempt
    && t.runs[r].lease == s.runs[r].lease && t.runs[r].token == s.runs[r].token
    && (Settled(s, r) ==> t.runs[r] == s.runs[r])
    && (Lapsed(s, r, now) ==> Lapsed(t, r, now))
  }

  /** What the rest of the world can rely on when the tables change. */
  ghost predicate Evolves(s: State, t: State, now: int) {
    && (forall r | r in s.runs :: KeepsRun(s, t, r, now))
    && (forall j | j in s.jobs :: j in t.jobs && t.jobs[j].task == s.jobs[j].task)
    && (forall r | r in s.runs && r in t.runs && t.runs[r].state == Leased ::
         ApprovedGates(t, s.runs[r].job) == ApprovedGates(s, s.runs[r].job))
  }

  lemma ResolveEvolves(s: State, j: Id, gate: Gate, ruling: Ruling, source: Option<Id>, now: int)
    requires Inv(s)
    ensures Evolves(s, Resolve(s, j, gate, ruling, source, now).0, now)
  {
    hide ValidTask, ValidRuling, RowOf, WaitingRuns, WaitingJobs, Recorded, Decided, Restrained;
    var t := Resolve(s, j, gate, ruling, source, now).0;
    forall r | r in s.runs && t.runs[r].state == Leased
      ensures ApprovedGates(t, s.runs[r].job) == ApprovedGates(s, s.runs[r].job)
    {
      if t != s {
        assert s.jobs[s.runs[r].job].active == Some(r);
        assert s.runs[r].job != j;
        SameApprovals(s, t, s.runs[r].job);
      }
    }
  }

  lemma SameApprovals(s: State, t: State, j: Id)
    requires forall k: (Id, Gate) | k.0 == j ::
               (k in s.decisions <==> k in t.decisions) && (k in s.decisions ==> s.decisions[k] == t.decisions[k])
    ensures ApprovedGates(t, j) == ApprovedGates(s, j)
  {
  }

  /** Enough when no decision is touched. */
  lemma QuietEvolves(s: State, t: State, now: int)
    requires t.decisions == s.decisions
    requires forall r | r in s.runs :: KeepsRun(s, t, r, now)
    requires forall j | j in s.jobs :: j in t.jobs && t.jobs[j].task == s.jobs[j].task
    ensures Evolves(s, t, now)
  {
    forall j
      ensures ApprovedGates(t, j) == ApprovedGates(s, j)
    {
      SameApprovals(s, t, j);
    }
  }

  /** An operation that decides nothing and starts or reports no run. */
  lemma LeaseOpEvolves(s: State, op: Op, now: int)
    requires !op.DoClaim? && !op.DoIngest? && !op.DoResolve?
    ensures Evolves(s, Apply(s, op, now), now)
  {
    hide ValidTask, Evolves;
    QuietEvolves(s, Apply(s, op, now), now);
  }

  lemma OperateEvolves(s: State, op: Op, now: int)
    requires Inv(s) && !op.DoClaim? && !op.DoIngest?
    ensures Evolves(s, Apply(s, op, now), now)
  {
    hide Inv, Evolves;
    if op.DoResolve? {
      ResolveEvolves(s, op.job, op.gate, op.ruling, op.source, now);
    } else {
      LeaseOpEvolves(s, op, now);
    }
  }

  lemma OperateReportsNothing(s: State, op: Op, now: int)
    requires !op.DoClaim? && !op.DoIngest?
    ensures var t := Apply(s, op, now); t.runs.Keys == s.runs.Keys
    ensures var t := Apply(s, op, now); forall r | r in t.runs && t.runs[r].state.Reported? :: s.runs[r] == t.runs[r]
  {
  }

  // --- every step keeps the invariant ------------------------------------------------------------------------

  /** The tables have moved on, with the same runs, or one more that was issued. */
  ghost predicate MovedOn(w: World, v: World) {
    && Evolves(w.tables, v.tables, w.clock)
    && v.clock == w.clock && v.daemons == w.daemons && v.sent == w.sent && v.kept == w.kept
    && (forall r | r in w.issued :: r in v.issued && v.issued[r] == w.issued[r] && (r in v.replies <==> r in w.replies))
  }

  lemma DaemonsFrame(w: World, v: World)
    requires AllIssued(w) && DaemonsKeep(w) && MovedOn(w, v)
    ensures DaemonsKeep(v)
  {
    forall worker
      ensures WellKept(v, worker)
    {
      assert WellKept(w, worker);
      var d := DaemonOf(w, worker);
      if d.active.Some? {
        OwnsFrame(w, v, worker, d.active.value);
      }
      if d.file.Some? {
        OwnsFrame(w, v, worker, d.file.value.claim);
      }
    }
  }

  lemma OwnsFrame(w: World, v: World, worker: Id, c: Claim)
    requires AllIssued(w) && MovedOn(w, v) && Owns(w, worker, c)
    ensures Owns(v, worker, c)
  {
    assert KeepsRun(w.tables, v.tables, c.run, w.clock);
  }

  lemma SentFrame(w: World, v: World)
    requires AllIssued(w) && AllSent(w) && MovedOn(w, v)
    ensures AllSent(v)
  {
    forall env | env in v.sent
      ensures WellSent(v, env)
    {
      assert WellSent(w, env);
      assert KeepsRun(w.tables, v.tables, env.run, w.clock);
    }
  }

  lemma KeptFrame(w: World, v: World)
    requires Kept(w) && MovedOn(w, v)
    ensures Kept(v)
  {
    forall r | r in v.kept
      ensures r in v.tables.runs && (Lapsed(v.tables, r, v.clock) || InFile(v, r))
    {
      assert KeepsRun(w.tables, v.tables, r, w.clock);
      assert Lapsed(w.tables, r, w.clock) || InFile(w, r);
    }
  }

  lemma AnswersFrame(w: World, v: World)
    requires Answers(w) && MovedOn(w, v) && v.answered == w.answered
    ensures Answers(v)
  {
    forall env | env in v.answered
      ensures env in v.sent && Settled(v.tables, env.run)
    {
      assert KeepsRun(w.tables, v.tables, env.run, w.clock);
    }
  }

  lemma IssuedFrame(w: World, v: World, r: Id)
    requires AllIssued(w) && MovedOn(w, v) && r in w.issued
    ensures Agrees(v.tables, r, v.issued[r])
  {
    assert Agrees(w.tables, r, w.issued[r]);
    assert KeepsRun(w.tables, v.tables, r, w.clock);
  }

  lemma OperateKeepsSafe(w: World, op: Op)
    requires Safe(w) && !op.DoClaim? && !op.DoIngest?
    ensures Safe(Next(w, Operate(op)))
  {
    hide Inv, Evolves, DaemonsKeep, AllSent, Kept, Answers, Apply;
    var v := Next(w, Operate(op));
    OperateEvolves(w.tables, op, w.clock);
    OperateReportsNothing(w.tables, op, w.clock);
    ApplyKeepsInv(w.tables, op, w.clock);
    assert MovedOn(w, v);
    forall r | r in v.issued
      ensures Agrees(v.tables, r, v.issued[r])
    {
      IssuedFrame(w, v, r);
    }
    DaemonsFrame(w, v);
    SentFrame(w, v);
    KeptFrame(w, v);
    AnswersFrame(w, v);
  }

  lemma StartRunEvolves(s: State, worker: Id, j: Id, now: int, run: Id, lease: Id, token: Id)
    requires j in s.jobs && run !in s.runs
    ensures Evolves(s, StartRun(s, worker, j, now, run, lease, token), now)
  {
    var t := StartRun(s, worker, j, now, run, lease, token);
    forall k
      ensures ApprovedGates(t, k) == ApprovedGates(s, k)
    {
      SameApprovals(s, t, k);
    }
  }

  lemma ClaimKeepsStored(w: World, v: World, worker: Id, j: Id, run: Id, lease: Id, token: Id)
    requires Stored(w) && v.sent == w.sent && j in w.tables.jobs
    requires v.tables == StartRun(w.tables, worker, j, w.clock, run, lease, token)
    ensures Stored(v)
  {
    forall r | r in v.tables.runs && v.tables.runs[r].state.Reported?
      ensures exists env :: env in v.sent && env.run == r && v.tables.runs[r].result == Some(env)
    {
      var env :| env in w.sent && env.run == r && w.tables.runs[r].result == Some(env);
      assert env in v.sent;
    }
  }

  lemma ClaimKeepsIssued(w: World, v: World, worker: Id, j: Id, run: Id, lease: Id, token: Id)
    requires AllIssued(w) && MovedOn(w, v) && j in w.tables.jobs && run !in w.tables.runs
    requires v.tables == StartRun(w.tables, worker, j, w.clock, run, lease, token)
    requires v.issued == w.issued[run := ClaimOf(w.tables, j, run, lease, token)] && v.replies == w.replies + {run}
    ensures AllIssued(v)
  {
    hide MovedOn;
    forall r | r in v.issued
      ensures Agrees(v.tables, r, v.issued[r])
    {
      if r != run {
        IssuedFrame(w, v, r);
      } else {
        SameApprovals(w.tables, v.tables, j);
      }
    }
  }

  lemma ClaimKeepsSafe(w: World, worker: Id, run: Id, lease: Id, token: Id)
    requires Safe(w)
    ensures Safe(Next(w, HandleClaim(worker, run, lease, token)))
  {
    hide Inv, Evolves, DaemonsKeep, AllSent, Kept, Answers, Stored, OneEach, Agrees, Pick;
    var v := Next(w, HandleClaim(worker, run, lease, token));
    ClaimKeepsInv(w.tables, worker, w.clock, run, lease, token);
    if v != w {
      var j := Pick(w.tables, worker).value;
      StartRunEvolves(w.tables, worker, j, w.clock, run, lease, token);
      assert MovedOn(w, v);
      hide StartRun, ClaimOf, MovedOn;
      ClaimKeepsIssued(w, v, worker, j, run, lease, token);
      ClaimKeepsStored(w, v, worker, j, run, lease, token);
      SameSent(w, v);
      DaemonsFrame(w, v);
      SentFrame(w, v);
      KeptFrame(w, v);
      AnswersFrame(w, v);
    }
  }

  /** What the Controller says to an envelope a daemon has sent, and keeps. */
  lemma IngestOfSent(w: World, env: Envelope)
    requires Safe(w) && env in w.sent
    ensures env.run in w.tables.runs
    ensures Ingest(w.tables, env) ==
              match w.tables.runs[env.run].state
              case Leased => (Store(w.tables, env.run, env), Accepted)
              case Reported(_) => (w.tables, Duplicate)
              case Stale => (w.tables, StaleResult)
  {
    assert WellSent(w, env);
    var s := w.tables;
    var c := w.issued[env.run];
    assert Agrees(s, env.run, c);
    if s.runs[env.run].state == Leased {
      assert s.jobs[env.job].active == Some(env.run);
      ApprovalsAreNames(s, c);
      assert WellRecorded(s, env.run);
    } else if s.runs[env.run].state.Reported? {
      var other :| other in w.sent && other.run == env.run && s.runs[env.run].result == Some(other);
    }
  }

  lemma ApprovalsAreNames(s: State, c: Claim)
    requires Inv(s) && c.job in s.jobs && c.task == s.jobs[c.job].task && c.approved == ApprovedGates(s, c.job)
    ensures W.ApprovedNames(c) == c.approved
    ensures forall g :: IsApproved(s, c.job, g) <==> g in W.ApprovedNames(c)
  {
    forall g | g in c.approved
      ensures g != "" && g in c.task.gates
    {
      assert WellDecided(s, (c.job, g));
    }
    forall g
      ensures IsApproved(s, c.job, g) <==> g in c.approved
    {
      assert (c.job, g).0 == c.job && (c.job, g).1 == g;
    }
  }

  lemma StoreEvolves(s: State, r: Id, env: Envelope, now: int)
    requires Inv(s) && r in s.runs && s.runs[r].state == Leased
    ensures Evolves(s, Store(s, r, env), now)
  {
    var t := Store(s, r, env);
    forall k
      ensures ApprovedGates(t, k) == ApprovedGates(s, k)
    {
      SameApprovals(s, t, k);
    }
  }

  lemma StoreKeepsRecords(w: World, env: Envelope)
    requires Stored(w) && env in w.sent && env.run in w.tables.runs && w.tables.runs[env.run].job in w.tables.jobs
    ensures Stored(w.(tables := Store(w.tables, env.run, env)))
    ensures Settled(Store(w.tables, env.run, env), env.run)
    ensures forall r | Settled(w.tables, r) :: Settled(Store(w.tables, env.run, env), r)
  {
    var v := w.(tables := Store(w.tables, env.run, env));
    forall r | r in v.tables.runs && v.tables.runs[r].state.Reported?
      ensures exists e :: e in v.sent && e.run == r && v.tables.runs[r].result == Some(e)
    {
      if r != env.run {
        var e :| e in w.sent && e.run == r && w.tables.runs[r].result == Some(e);
        assert e in v.sent;
      }
    }
  }

  lemma DeliverKeepsRecords(w: World, env: Envelope)
    requires Safe(w) && env in w.sent
    ensures var v := Next(w, Deliver(env)); Stored(v) && Answers(v)
  {
    IngestOfSent(w, env);
    var v := Next(w, Deliver(env));
    assert Stored(w) && Answers(w);
    hide Safe, Ingest, Stored, Store;
    if w.tables.runs[env.run].state == Leased {
      StoreKeepsRecords(w, env);
      SameStored(w.(tables := Store(w.tables, env.run, env)), v);
    } else {
      SameStored(w, v);
    }
  }

  lemma SameStored(w: World, v: World)
    requires Stored(w) && v.tables == w.tables && v.sent == w.sent
    ensures Stored(v)
  {
  }

  lemma DeliverEvolves(w: World, env: Envelope)
    requires Safe(w) && env in w.sent
    ensures var t := Ingest(w.tables, env).0; Evolves(w.tables, t, w.clock) && t.runs.Keys == w.tables.runs.Keys
  {
    IngestOfSent(w, env);
    assert Inv(w.tables);
    hide Safe, Ingest, Evolves, Inv;
    if w.tables.runs[env.run].state == Leased {
      StoreEvolves(w.tables, env.run, env, w.clock);
    } else {
      QuietEvolves(w.tables, w.tables, w.clock);
    }
  }

  lemma DeliverMoves(w: World, env: Envelope)
    requires Safe(w) && env in w.sent
    ensures var v := Next(w, Deliver(env));
            MovedOn(w, v) && v.tables.runs.Keys == w.tables.runs.Keys && v.issued == w.issued && v.replies == w.replies
  {
    DeliverEvolves(w, env);
    NextDeliver(w, env);
    hide Safe, Ingest, Evolves, Next;
  }

  lemma NextDeliver(w: World, env: Envelope)
    requires env in w.sent
    ensures var (tables, outcome) := Ingest(w.tables, env);
            Next(w, Deliver(env)) ==
              w.(tables := tables, answered := if outcome == RefusedResult then w.answered else w.answered + {env})
  {
    hide Ingest, TakeClaim, ActIn, Apply;
  }

  lemma DeliverKeepsSafe(w: World, env: Envelope)
    requires Safe(w) && env in w.sent
    ensures Safe(Next(w, Deliver(env)))
  {
    DeliverMoves(w, env);
    DeliverKeepsRecords(w, env);
    hide Inv, Evolves, DaemonsKeep, AllSent, Kept, Ingest, Answers, Stored, MovedOn, Agrees, OneEach;
    IngestKeepsInv(w.tables, env);
    var v := Next(w, Deliver(env));
    forall r | r in v.issued
      ensures Agrees(v.tables, r, v.issued[r])
    {
      IssuedFrame(w, v, r);
    }
    DaemonsFrame(w, v);
    SentFrame(w, v);
    KeptFrame(w, v);
    assert OneEach(v) by {
      SameSent(w, v);
    }
  }

  lemma SameSent(w: World, v: World)
    requires OneEach(w) && v.sent == w.sent
    ensures OneEach(v)
  {
  }

  lemma TickKeepsSafe(w: World, later: int)
    requires Safe(w) && w.clock <= later
    ensures Safe(Next(w, Tick(later)))
  {
    hide Inv;
    var v := Next(w, Tick(later));
    TickKeepsDaemons(w, later);
    assert forall r | r in v.issued :: Agrees(w.tables, r, w.issued[r]);
    forall env | env in v.sent
      ensures WellSent(v, env)
    {
      assert WellSent(w, env);
    }
  }

  lemma TickKeepsDaemons(w: World, later: int)
    requires DaemonsKeep(w) && Kept(w) && w.clock <= later
    ensures var v := w.(clock := later); DaemonsKeep(v) && Kept(v)
  {
    var v := w.(clock := later);
    forall worker
      ensures WellKept(v, worker)
    {
      assert WellKept(w, worker);
    }
    forall r | r in v.kept
      ensures Lapsed(v.tables, r, v.clock) || InFile(v, r)
    {
      assert Lapsed(w.tables, r, w.clock) || InFile(w, r);
    }
  }

  lemma LocalKeepsDaemons(w: World, worker: Id, action: W.Action)
    requires Safe(w) && Allowed(w, Local(worker, action))
    ensures DaemonsKeep(Next(w, Local(worker, action)))
  {
    var v := Next(w, Local(worker, action));
    forall other
      ensures WellKept(v, other)
    {
      if other == worker {
        ActionKeeps(w, worker, action);
      } else {
        OtherKeeps(w, worker, action, other);
      }
    }
  }

  lemma OtherKeeps(w: World, worker: Id, action: W.Action, other: Id)
    requires DaemonsKeep(w) && Allowed(w, Local(worker, action)) && other != worker
    ensures WellKept(Next(w, Local(worker, action)), other)
  {
    assert WellKept(w, other);
  }

  /** Memory and disk of the daemon that moves. */
  lemma ActionKeeps(w: World, worker: Id, action: W.Action)
    requires Safe(w) && Allowed(w, Local(worker, action))
    ensures WellKept(Next(w, Local(worker, action)), worker)
  {
    var d := DaemonOf(w, worker);
    assert WellKept(w, worker);
    W.ActKeepsOrder(worker, d, action);
    if action.Finish? {
      W.BuildIsSound(worker, d.active.value, action.result, action.stamp);
    } else if action.Clear? && d.phase == W.Sending {
      assert d.pending.value in w.answered;
    }
  }

  /** An envelope sent before is still sound and remembered. */
  lemma LocalKeepsOne(w: World, worker: Id, action: W.Action, env: Envelope)
    requires DaemonsKeep(w) && WellSent(w, env) && Allowed(w, Local(worker, action))
    ensures WellSent(Next(w, Local(worker, action)), env)
  {
    hide W.Sound, W.Build, Lapsed;
    assert WellKept(w, worker);
  }

  /** The envelope put on the network is the one in the state file. */
  lemma SendsOne(w: World, worker: Id)
    requires DaemonsKeep(w) && AllSent(w) && Allowed(w, Local(worker, W.Send))
    ensures WellSent(Next(w, Local(worker, W.Send)), DaemonOf(w, worker).pending.value)
    ensures forall env | env in w.sent && env.run == DaemonOf(w, worker).pending.value.run ::
              env == DaemonOf(w, worker).pending.value
  {
    hide ValidEnvelope, EngineMatches, GateAllowed, Lapsed;
    assert WellKept(w, worker);
    var pending := DaemonOf(w, worker).pending.value;
    forall env | env in w.sent && env.run == pending.run
      ensures env == pending
    {
      assert WellSent(w, env);
    }
  }

  lemma LocalKeepsSent(w: World, worker: Id, action: W.Action)
    requires Safe(w) && Allowed(w, Local(worker, action))
    ensures var v := Next(w, Local(worker, action)); AllSent(v) && OneEach(v)
  {
    hide Inv, AllIssued, DaemonsKeep, Stored, Answers, Kept, WellSent, W.Act, Lapsed;
    var v := Next(w, Local(worker, action));
    if action.Send? {
      SendsOne(w, worker);
    }
    forall env | env in v.sent
      ensures WellSent(v, env)
    {
      if env in w.sent {
        LocalKeepsOne(w, worker, action, env);
      }
    }
  }

  lemma LocalKeepsFile(w: World, worker: Id, action: W.Action, r: Id)
    requires WellKept(w, worker) && Allowed(w, Local(worker, action))
    requires r in w.tables.runs && w.tables.runs[r].worker == worker && InFile(w, r)
    ensures Lapsed(w.tables, r, w.clock) || InFile(Next(w, Local(worker, action)), r)
  {
    hide Owns, SoundIf, Lapsed, W.Build;
  }

  lemma SaveKeepsFile(w: World, worker: Id)
    requires WellKept(w, worker) && Allowed(w, Local(worker, W.Save))
    ensures DaemonOf(w, worker).active.Some?
    ensures var r := DaemonOf(w, worker).active.value.run;
            r in w.tables.runs && InFile(Next(w, Local(worker, W.Save)), r)
  {
    hide SoundIf, Lapsed;
  }

  lemma OtherFileStays(w: World, worker: Id, action: W.Action, r: Id)
    requires Allowed(w, Local(worker, action))
    requires r in w.tables.runs && w.tables.runs[r].worker != worker && InFile(w, r)
    ensures InFile(Next(w, Local(worker, action)), r)
  {
    hide W.Act;
  }

  lemma LocalKeepsKept(w: World, worker: Id, action: W.Action)
    requires Safe(w) && Allowed(w, Local(worker, action))
    ensures Kept(Next(w, Local(worker, action)))
  {
    var v := Next(w, Local(worker, action));
    assert WellKept(w, worker);
    assert Kept(w);
    hide Safe, Lapsed, WellKept, InFile, W.Act, W.Can;
    if action.Save? {
      SaveKeepsFile(w, worker);
    }
    forall r | r in v.kept
      ensures r in v.tables.runs && (Lapsed(v.tables, r, v.clock) || InFile(v, r))
    {
      if r in w.kept && InFile(w, r) {
        if w.tables.runs[r].worker == worker {
          LocalKeepsFile(w, worker, action, r);
        } else {
          OtherFileStays(w, worker, action, r);
        }
      }
    }
  }

  lemma LocalKeepsStored(w: World, worker: Id, action: W.Action)
    requires Stored(w) && Answers(w) && Allowed(w, Local(worker, action))
    ensures Stored(Next(w, Local(worker, action))) && Answers(Next(w, Local(worker, action)))
  {
    hide W.Act, W.Can, Lapsed;
    var v := Next(w, Local(worker, action));
    forall r | r in v.tables.runs && v.tables.runs[r].state.Reported?
      ensures exists env :: env in v.sent && env.run == r && v.tables.runs[r].result == Some(env)
    {
      var env :| env in w.sent && env.run == r && w.tables.runs[r].result == Some(env);
      assert env in v.sent;
    }
  }

  lemma LocalKeepsIssued(w: World, worker: Id, action: W.Action)
    requires AllIssued(w) && Allowed(w, Local(worker, action))
    ensures AllIssued(Next(w, Local(worker, action)))
    ensures Next(w, Local(worker, action)).tables == w.tables
  {
    hide W.Act, W.Can, Agrees;
  }

  lemma LocalKeepsSafe(w: World, worker: Id, action: W.Action)
    requires Safe(w) && Allowed(w, Local(worker, action))
    ensures Safe(Next(w, Local(worker, action)))
  {
    LocalKeepsDaemons(w, worker, action);
    LocalKeepsSent(w, worker, action);
    LocalKeepsKept(w, worker, action);
    hide Inv, AllIssued, DaemonsKeep, AllSent, OneEach, Stored, Answers, Kept, Allowed, Next;
    LocalKeepsIssued(w, worker, action);
    LocalKeepsStored(w, worker, action);
  }

  lemma NextKeepsSafe(w: World, step: Step)
    requires Safe(w)
    ensures Safe(Next(w, step))
  {
    hide Safe;
    if Allowed(w, step) {
      match step {
        case Operate(op) => OperateKeepsSafe(w, op);
        case HandleClaim(worker, run, lease, token) => ClaimKeepsSafe(w, worker, run, lease, token);
        case Deliver(env) => DeliverKeepsSafe(w, env);
        case Local(worker, action) => LocalKeepsSafe(w, worker, action);
        case Tick(later) => TickKeepsSafe(w, later);
      }
    }
  }

  lemma InitiallySafe()
    ensures Safe(INITIAL_WORLD)
  {
    AlwaysInv([]);
    hide Inv;
    assert DaemonsKeep(INITIAL_WORLD) by {
      assert forall worker :: DaemonOf(INITIAL_WORLD, worker) == W.FRESH_DAEMON;
    }
  }

  lemma {:induction false} AlwaysSafe(steps: seq<Step>)
    ensures Safe(Reached(steps))
  {
    hide Safe, Next;
    if steps == [] {
      InitiallySafe();
    } else {
      AlwaysSafe(steps[..|steps| - 1]);
      NextKeepsSafe(Reached(steps[..|steps| - 1]), steps[|steps| - 1]);
    }
  }
}
