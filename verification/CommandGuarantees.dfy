/** What callers and operators can rely on: idempotent commands, safe retention, verified success. */
module CommandGuarantees {
  import opened Types
  import opened StoreOps
  import opened WorkflowOps
  import opened ManagerOps
  import opened RunnerOps
  import opened System
  import opened Invariant
  import opened PairProofs
  import opened TaskProofs
  import opened StoreProofs
  import opened SettleProofs
  import opened ScheduleProofs
  import opened PlanProofs
  import opened RetainProofs
  import opened CommitProofs
  import opened SteadyProofs
  import opened RunProofs
  import opened RunGuarantees

  // -------------------------------------------------------------- idempotent commands

  /** The tombstone's horizon has passed and its task is gone. */
  predicate Expired(cfg: Config, db: Db, c: Command) {
    c.acceptedAt + cfg.horizon < db.clock && c.task !in db.tasks
  }

  /** What a recorded command says of its task: a submission whose task plans a workflow was a valid
      workflow document, the others name their own task, and a plan command has its receipt. */
  predicate Formed(c: Command, planner: bool) {
    match c.payload
    case SubmitPayload(raw) => planner ==> Creatable(raw)
    case CancelPayload(t) => c.task == t
    case PlanPayload(_, r, _) => c.task == r && c.receipt.Some?
  }

  ghost predicate WellFormed(db: Db) {
    forall k :: k in db.commands ==> Formed(db.commands[k], db.commands[k].task in db.roots)
  }

  /** Recorded commands stay until they expire, and a task is a planner from the start or never. */
  ghost predicate KeysKept(cfg: Config, x: Db, y: Db) {
    && (forall k :: k in x.commands ==> (k in y.commands && y.commands[k] == x.commands[k]) || Expired(cfg, y, x.commands[k]))
    && (forall r :: r in x.roots ==> r in y.roots)
    && (forall r :: r in y.roots && r !in x.roots ==> r >= x.nextId)
    && (WellFormed(x) ==> WellFormed(y))
  }

  lemma SameKeys(cfg: Config, x: Db, y: Db)
    requires y.commands == x.commands && y.roots.Keys == x.roots.Keys
    ensures KeysKept(cfg, x, y)
  {
    hide Formed;
  }

  lemma AddedKey(cfg: Config, x: Db, y: Db, key: Label)
    requires forall k :: k in x.commands ==> x.commands[k].task < x.nextId
    requires key !in x.commands && key in y.commands && y.commands == x.commands[key := y.commands[key]]
    requires x.roots.Keys <= y.roots.Keys <= x.roots.Keys + {x.nextId}
    requires Formed(y.commands[key], y.commands[key].task in y.roots)
    ensures KeysKept(cfg, x, y)
  {
    hide Formed;
  }

  lemma KeysCompose(cfg: Config, x: Db, y: Db, z: Db)
    requires Inv(cfg, x) && KeysKept(cfg, x, y) && KeysKept(cfg, y, z) && Advances(x, y) && Advances(y, z)
    ensures KeysKept(cfg, x, z)
  {
    hide Inv, WellFormed;
    CommandsKnown(cfg, x);
    forall k | k in x.commands
      ensures (k in z.commands && z.commands[k] == x.commands[k]) || Expired(cfg, z, x.commands[k])
    {
      assert x.commands[k].task !in y.tasks ==> x.commands[k].task !in z.tasks;
    }
  }

  lemma CommandsKnown(cfg: Config, db: Db)
    requires Inv(cfg, db)
    ensures forall k :: k in db.commands ==> db.commands[k].task < db.nextId
    ensures db.nextId !in db.roots
  {
    hide Inv;
    InvReferences(cfg, db);
    FreshId(cfg, db);
  }

  lemma SubmitKeys(cfg: Config, db: Db, key: Label, raw: Raw)
    requires Inv(cfg, db)
    ensures KeysKept(cfg, db, Submit(db, key, raw).0)
  {
    hide ValidSpec, KeysKept, Inv;
    CommandsKnown(cfg, db);
    var db1 := Submit(db, key, raw).0;
    if db1.commands == db.commands {
      SameKeys(cfg, db, db1);
    } else {
      AddedKey(cfg, db, db1, key);
    }
  }

  lemma CreateKeys(cfg: Config, db: Db, key: Label, raw: Raw)
    requires Inv(cfg, db)
    ensures KeysKept(cfg, db, CreateWorkflow(db, key, raw).0)
  {
    hide Creatable, PlannerSpec, KeysKept, Inv;
    CommandsKnown(cfg, db);
    var db1 := CreateWorkflow(db, key, raw).0;
    if db1 == db {
      SameKeys(cfg, db, db1);
    } else {
      WorkflowRaw(raw);
      AddedKey(cfg, db, db1, key);
    }
  }

  lemma WorkflowRaw(raw: Raw)
    requires Creatable(raw)
    ensures raw.workflow.Some?
  {
  }

  lemma CancelKeys(cfg: Config, db: Db, t: TaskId, key: Label)
    requires Inv(cfg, db)
    ensures KeysKept(cfg, db, StoreOps.Cancel(db, t, key).0)
  {
    hide KeysKept, CancelOpen, Inv;
    CommandsKnown(cfg, db);
    var db1 := StoreOps.Cancel(db, t, key).0;
    if t in db.tasks {
      CancelOpenFrame(Record(db, key, Command(t, CancelPayload(t), db.clock, None)), t);
    }
    if db1.commands == db.commands {
      SameKeys(cfg, db, db1);
    } else {
      AddedKey(cfg, db, db1, key);
    }
  }

  lemma PlanKeys(cfg: Config, db: Db, r: TaskId, doc: PlanDoc, replan: bool, key: Option<Label>)
    requires Inv(cfg, db)
    ensures KeysKept(cfg, db, SettlePlanCommand(db, r, doc, replan, key).0)
  {
    hide KeysKept, SettlePlan, KnownUsage, Successes, Rotation, Inv;
    CommandsKnown(cfg, db);
    var db1 := SettlePlanCommand(db, r, doc, replan, key).0;
    if r in db.roots {
      SettlePlanSteady(db, r, doc, replan);
    }
    if db1.commands == db.commands {
      SameKeys(cfg, db, db1);
    } else {
      AddedKey(cfg, db, db1, key.value);
    }
  }

  lemma PurgeKeys(cfg: Config, db: Db, now: Time)
    requires now <= db.clock
    ensures KeysKept(cfg, db, RetainPurge(db, cfg, now))
  {
    hide Formed;
  }

  lemma RetainKeys(cfg: Config, db: Db, t: TaskId, now: Time)
    ensures KeysKept(cfg, db, RetainMark(db, cfg, now))
    ensures t in db.intents ==> KeysKept(cfg, db, RetainPhase(db, t))
  {
    hide Retirable, ResultPaths, DeleteDependents, KeysKept;
    SameKeys(cfg, db, RetainMark(db, cfg, now));
    if t in db.intents {
      SameKeys(cfg, db, RetainPhase(db, t));
    }
  }

  lemma WorkerKeys(cfg: Config, db: Db, w: WorkerId, runtimes: set<Label>, slots: nat, allowWrite: bool)
    ensures KeysKept(cfg, db, RegisterWorker(db, w, runtimes, slots, allowWrite).0) && KeysKept(cfg, db, HeartbeatWorker(db, w))
  {
    hide KeysKept;
    SameKeys(cfg, db, RegisterWorker(db, w, runtimes, slots, allowWrite).0);
    SameKeys(cfg, db, HeartbeatWorker(db, w));
  }

  lemma SteadyKeys(cfg: Config, x: Db, y: Db, decided: Option<TaskId>)
    requires Steady(x, y, decided)
    ensures KeysKept(cfg, x, y)
  {
    hide KnownUsage, Successes, Rotation, KeysKept;
    SameKeys(cfg, x, y);
  }

  lemma CommitSteadily(cfg: Config, m: Machine, s: Snapshot, valid: bool, plan: Option<PlanDoc>)
    requires Sound(cfg, m) && s in m.flight
    ensures Steady(m.db, Commit(m.db, s, VerdictOf(s, valid), plan), if valid && Awaits(m.db, s) then Some(s.task) else None)
  {
    hide Sound, SnapSound, Commit, SettleWithPlan, Steady;
    FlightSound(cfg, m, s);
    CommitRefinesAtomic(m.db, s, valid, plan);
    SteadyReflexive(m.db);
    if Awaits(m.db, s) {
      CommitSteady(m.db, s.task, valid, plan);
    }
  }

  lemma NextKeys(cfg: Config, m: Machine, step: Step)
    requires Sound(cfg, m)
    ensures KeysKept(cfg, m.db, Next(cfg, m, step).db)
  {
    hide Inv, Sound, KeysKept, Submit, CreateWorkflow, StoreOps.Cancel, ProcessNext, Steady, InUnknown, InLaunch;
    hide Resolve, SettlePlanCommand, Deliver, RetainMark, RetainPhase, RetainPurge;
    SoundDb(cfg, m);
    SameKeys(cfg, m.db, m.db);
    match step
    case Wait(d) => SameKeys(cfg, m.db, m.db.(clock := m.db.clock + d));
    case DoSubmit(key, raw) => SubmitKeys(cfg, m.db, key, raw);
    case DoCreate(key, raw) => CreateKeys(cfg, m.db, key, raw);
    case DoCancel(t, key) => CancelKeys(cfg, m.db, t, key);
    case DoResolve(a, confirmed) => ResolveTasks(m.db, a, confirmed); SameKeys(cfg, m.db, Resolve(m.db, a, confirmed).0);
    case DoSettlePlan(r, doc, replan, key) => PlanKeys(cfg, m.db, r, doc, replan, key);
    case DoDeliver(t, sound) => DeliverSteady(m.db, t, sound); SteadyKeys(cfg, m.db, Deliver(m.db, t, sound).0, None);
    case DoRetainMark(now) => RetainKeys(cfg, m.db, 0, now);
    case DoRetainPhase(t) => RetainKeys(cfg, m.db, t, 0.0);
    case DoRetainPurge(now) => if now <= m.db.clock { PurgeKeys(cfg, m.db, now); }
    case _ => ProcessKeys(cfg, m, step);
  }

  lemma ProcessKeys(cfg: Config, m: Machine, step: Step)
    requires Sound(cfg, m)
    ensures KeysKept(cfg, m.db, ProcessNext(cfg, m, step).db)
  {
    hide Inv, Sound, KeysKept, RegisterWorker, HeartbeatWorker, ClaimLaunch, ReportStep, Steady, Tick, Commit, RequestStep, InUnknown, InLaunch;
    SoundDb(cfg, m);
    SameKeys(cfg, m.db, m.db);
    match step
    case DoRegister(w, runtimes, slots, allowWrite) => WorkerKeys(cfg, m.db, w, runtimes, slots, allowWrite);
    case DoHeartbeat(w) => WorkerKeys(cfg, m.db, w, {}, 0, false);
    case DoClaim(a, w, identified) => ClaimTasks(m.db, a, w, identified); SameKeys(cfg, m.db, ClaimLaunch(m.db, a, w, identified).0);
    case DoRequest(a, response) => RequestFrame(m, a, response);
    case DoPublish(a) => SameKeys(cfg, m.db, m.db.(files := m.db.files + {a}));
    case DoReport(a, state, sha, kind, withTotal) =>
      ReportTasks(m, a, state, sha, kind, withTotal);
      SameKeys(cfg, m.db, ReportStep(m, a, state, sha, kind, withTotal).db);
    case DoTick(env) => TickSteady(cfg, m.db, env); SteadyKeys(cfg, m.db, Tick(m.db, cfg, env).0, None);
    case DoCommit(s, valid, plan) =>
      if s in m.flight {
        CommitSteadily(cfg, m, s, valid, plan);
        SteadyKeys(cfg, m.db, Commit(m.db, s, VerdictOf(s, valid), plan), if valid && Awaits(m.db, s) then Some(s.task) else None);
      }
    case _ =>
  }

  lemma {:induction false} ExecKeys(cfg: Config, m: Machine, steps: seq<Step>)
    requires Sound(cfg, m)
    ensures KeysKept(cfg, m.db, Exec(cfg, m, steps).db)
  {
    hide Sound, Next, Advances, Inv, KeysKept;
    SoundDb(cfg, m);
    if steps == [] {
      SameKeys(cfg, m.db, m.db);
    } else {
      var n := |steps| - 1;
      var m1 := Exec(cfg, m, steps[..n]);
      ExecAdvances(cfg, m, steps[..n]);
      ExecKeys(cfg, m, steps[..n]);
      NextKeys(cfg, m1, steps[n]);
      NextAdvances(cfg, m1, steps[n]);
      KeysCompose(cfg, m.db, m1.db, Exec(cfg, m, steps).db);
    }
  }

  lemma ReachedFormed(cfg: Config, steps: seq<Step>)
    ensures WellFormed(Reached(cfg, steps).db)
  {
    hide Sound, Formed;
    StartSound(cfg);
    ExecKeys(cfg, START, steps);
  }

  /** A command that was accepted at some point of a run and may still be repeated at a later point. */
  ghost predicate Repeatable(cfg: Config, before: seq<Step>, after: seq<Step>, key: Label) {
    var x := Reached(cfg, before).db;
    key in x.commands && !Expired(cfg, Exec(cfg, Reached(cfg, before), after).db, x.commands[key])
  }

  /** The command is still recorded as it was, its task plans a workflow now exactly if it did then,
      and it is well formed. */
  lemma StillRecorded(cfg: Config, before: seq<Step>, after: seq<Step>, key: Label)
    requires Repeatable(cfg, before, after, key)
    ensures var x, y := Reached(cfg, before).db, Exec(cfg, Reached(cfg, before), after).db;
            && key in y.commands && y.commands[key] == x.commands[key]
            && (x.commands[key].task in y.roots <==> x.commands[key].task in x.roots)
            && Formed(x.commands[key], x.commands[key].task in x.roots)
  {
    hide Reached, Sound, Inv, Formed;
    ReachedSound(cfg, before);
    ReachedFormed(cfg, before);
    CommandsKnown(cfg, Reached(cfg, before).db);
    ExecKeys(cfg, Reached(cfg, before), after);
  }

  /** As long as a command's task exists or its horizon has not passed, however retention and other
      commands interleave, the same key and payload return the original receipt and change nothing,
      and another payload conflicts. */
  lemma SubmitIdempotent(cfg: Config, before: seq<Step>, after: seq<Step>, key: Label, raw: Raw)
    requires Repeatable(cfg, before, after, key)
    ensures var c := Reached(cfg, before).db.commands[key];
            var y := Exec(cfg, Reached(cfg, before), after).db;
            Submit(y, key, raw)
            == (y, if c.payload == SubmitPayload(raw) then Receipted(c.task, true) else Outcome.Refused(Conflict))
  {
    hide Reached, Formed, Repeatable;
    StillRecorded(cfg, before, after, key);
  }

  /** The same for workflow creation.  An identical document returns the original planner if a
      creation recorded it; if a plain submission did, or the document differs, creation is refused
      and changes nothing. */
  lemma CreateIdempotent(cfg: Config, before: seq<Step>, after: seq<Step>, key: Label, raw: Raw)
    requires Repeatable(cfg, before, after, key)
    ensures var x := Reached(cfg, before).db;
            var y := Exec(cfg, Reached(cfg, before), after).db;
            var c := x.commands[key];
            CreateWorkflow(y, key, raw)
            == (y, if c.payload == SubmitPayload(raw) && c.task in x.roots then Receipted(c.task, true)
                   else if Creatable(raw) then Outcome.Refused(Conflict) else Outcome.Refused(Invalid))
  {
    hide Reached, Creatable, Repeatable;
    StillRecorded(cfg, before, after, key);
  }

  lemma CancelIdempotent(cfg: Config, before: seq<Step>, after: seq<Step>, key: Label, t: TaskId)
    requires Repeatable(cfg, before, after, key)
    ensures var c := Reached(cfg, before).db.commands[key];
            var y := Exec(cfg, Reached(cfg, before), after).db;
            StoreOps.Cancel(y, t, key) == (y, if c.payload == CancelPayload(t) then Receipted(t, true) else Outcome.Refused(Conflict))
  {
    hide Reached, CancelOpen, Repeatable, Creatable;
    StillRecorded(cfg, before, after, key);
  }

  /** A repeated plan command returns the receipt of the first, whatever the plan would do now, and
      any other payload under its key conflicts. */
  lemma PlanIdempotent(cfg: Config, before: seq<Step>, after: seq<Step>, key: Label, r: TaskId, doc: PlanDoc, replan: bool)
    requires Repeatable(cfg, before, after, key)
    ensures var c := Reached(cfg, before).db.commands[key];
            var y := Exec(cfg, Reached(cfg, before), after).db;
            if c.payload == PlanPayload(replan, r, doc)
            then c.receipt.Some? && SettlePlanCommand(y, r, doc, replan, Some(key)) == (y, Answer(c.receipt.value, true))
            else SettlePlanCommand(y, r, doc, replan, Some(key)) == (y, Declined(Conflict))
  {
    hide Reached, SettlePlan, Repeatable, Creatable;
    StillRecorded(cfg, before, after, key);
  }

  // -------------------------------------------------------------------- retention

  /** Only the second phase removes the task row. */
  lemma PhaseTasks(db: Db, intent: TaskId)
    requires intent in db.intents
    ensures RetainPhase(db, intent).tasks == if db.intents[intent].stage.TaskRow? then db.tasks - {intent} else db.tasks
  {
    hide DeleteDependents;
  }

  lemma RemovingPhase(db: Db, intent: TaskId, t: TaskId)
    requires intent in db.intents && t in db.tasks && t !in RetainPhase(db, intent).tasks
    ensures t == intent && db.intents[intent].stage.TaskRow?
    ensures RetainPhase(db, intent).attempts == DeleteDependents(db, intent).attempts
  {
    PhaseTasks(db, intent);
    hide DeleteDependents;
  }

  /** A phase that removes a task row ends a finished task that neither belongs to a workflow nor plans one. */
  lemma OnlyDetachedRetired(cfg: Config, steps: seq<Step>, intent: TaskId, t: TaskId)
    requires var db := Reached(cfg, steps).db;
             intent in db.intents && t in db.tasks && t !in RetainPhase(db, intent).tasks
    ensures var db := Reached(cfg, steps).db;
            && t == intent && Terminal(db.tasks[t].status) && !Named(db.children, t) && t !in db.roots
            && !Attempted(RetainPhase(db, intent).attempts, t)
  {
    hide Reached, Inv, RetainPhase, DeleteDependents, Named, Attempted;
    ReachedSound(cfg, steps);
    var db := Reached(cfg, steps).db;
    RemovingPhase(db, intent, t);
    Marked(cfg, db, intent);
    DeletedAttempts(db, intent);
  }

  lemma DeletedAttempts(db: Db, t: TaskId)
    ensures !Attempted(DeleteDependents(db, t).attempts, t)
  {
    hide Named;
  }

  /** A phase that removes an artifact comes after its task's row and attempts are gone, and no
      remaining attempt refers to it. */
  lemma ArtifactsOutliveRows(cfg: Config, steps: seq<Step>, intent: TaskId, p: AttemptId)
    requires var db := Reached(cfg, steps).db;
             intent in db.intents && p in db.files && p !in RetainPhase(db, intent).files
    ensures var db := Reached(cfg, steps).db;
            && intent !in db.tasks && !Attempted(db.attempts, intent) && p !in db.attempts
            && forall a :: a in db.attempts ==> db.attempts[a].resultPath != Some(p)
  {
    hide Reached, Inv, RetainPhase;
    ReachedSound(cfg, steps);
    var db := Reached(cfg, steps).db;
    RemovedFile(cfg, db, intent, p);
    KnownTasks(cfg, db);
    forall a | a in db.attempts ensures db.attempts[a].resultPath != Some(p) {
      SoundAttempt(cfg, db, a);
    }
  }

  lemma RemovedFile(cfg: Config, db: Db, intent: TaskId, p: AttemptId)
    requires Inv(cfg, db) && intent in db.intents && p in db.files && p !in RetainPhase(db, intent).files
    ensures intent !in db.tasks && (p in db.attempts ==> db.attempts[p].task == intent)
  {
    hide Inv, DeleteDependents;
    InvReferences(cfg, db);
    assert IntentSound(db, intent, db.intents[intent]);
  }

  /** Every reference of one table to another points at an existing row. */
  ghost predicate Intact(db: Db) {
    && (forall t :: t in db.tasks && Open(db.tasks[t].status) ==> db.tasks[t].current.Some? && db.tasks[t].current.value in db.attempts)
    && (forall a :: a in db.attempts ==> db.attempts[a].task in db.tasks && db.attempts[a].worker in db.workers)
    && (forall a :: a in db.outbox ==> a in db.attempts)
    && (forall r :: r in db.roots ==> r in db.tasks)
    && (forall c :: c in db.children ==> c.root in db.roots && c.task in db.tasks)
    && (forall p :: p in db.transfers ==> p.0 in db.tasks && p.1 in db.tasks)
    && (forall e :: e in db.events ==> e.task in db.tasks)
    && (forall t :: t in db.intents && !db.intents[t].stage.Artifact? ==> t in db.tasks)
  }

  /** Every commit point, in the middle of retention or anywhere else, keeps every reference between tables intact. */
  lemma IntegrityAtEveryCommit(cfg: Config, steps: seq<Step>)
    ensures Intact(Reached(cfg, steps).db)
  {
    hide Reached, Inv, Intact;
    ReachedSound(cfg, steps);
    InvIntact(cfg, Reached(cfg, steps).db);
  }

  lemma InvIntact(cfg: Config, db: Db)
    requires Inv(cfg, db)
    ensures Intact(db)
  {
    hide Inv;
    KnownReferences(cfg, db);
    InvReferences(cfg, db);
    forall t | t in db.tasks && Open(db.tasks[t].status) ensures db.tasks[t].current.Some? && db.tasks[t].current.value in db.attempts {
      SoundTask(cfg, db, t);
    }
    forall t | t in db.intents && !db.intents[t].stage.Artifact? ensures t in db.tasks {
      assert IntentSound(db, t, db.intents[t]);
    }
  }

  /** An intent's task is gone with its attempts and artifacts, or the intent is still there, unchanged in what it removes. */
  ghost predicate Progressed(x: Db, y: Db, t: TaskId) {
    || (t in x.intents && t in y.intents && y.intents[t].paths == x.intents[t].paths)
    || (t in x.intents && t !in y.tasks && !Attempted(y.attempts, t) && x.intents[t].paths !! y.files)
  }

  lemma PhaseProgress(cfg: Config, db: Db, oldest: TaskId, t: TaskId)
    requires Inv(cfg, db) && oldest in db.intents && t in db.intents
    ensures Progressed(db, RetainPhase(db, oldest), t)
  {
    hide Inv, DeleteDependents;
    InvReferences(cfg, db);
    assert IntentSound(db, oldest, db.intents[oldest]);
    KnownTasks(cfg, db);
  }

  lemma RemovedStay(db: Db, oldest: TaskId, files: set<AttemptId>, t: TaskId)
    requires oldest in db.intents && t !in db.tasks && !Attempted(db.attempts, t) && files !! db.files
    ensures var y := RetainPhase(db, oldest); t !in y.tasks && !Attempted(y.attempts, t) && files !! y.files
  {
    hide DeleteDependents;
    DeleteShrinks(db, oldest);
    var y := RetainPhase(db, oldest);
    assert y.files <= db.files && y.tasks.Keys <= db.tasks.Keys;
    assert forall a :: a in y.attempts ==> a in db.attempts && y.attempts[a] == db.attempts[a];
    hide RetainPhase;
  }

  lemma DeleteShrinks(db: Db, t: TaskId)
    ensures forall a :: a in DeleteDependents(db, t).attempts ==> a in db.attempts && DeleteDependents(db, t).attempts[a] == db.attempts[a]
  {
    hide WithoutTask, WithoutChild;
  }

  /** Draining removes every task that has an intent, its attempts and its artifacts. */
  lemma {:induction false} DrainRemoves(cfg: Config, db: Db, t: TaskId, files: set<AttemptId>)
    requires Inv(cfg, db)
    requires (t in db.intents && db.intents[t].paths == files) || (t !in db.tasks && !Attempted(db.attempts, t) && files !! db.files)
    ensures var y := Drain(db); t !in y.tasks && !Attempted(y.attempts, t) && files !! y.files
    decreases PhasesLeft(db.intents, db.nextId)
  {
    hide Inv, Advances, RetainPhase;
    InvReferences(cfg, db);
    IntentsKnown(db);
    var oldest := OldestIntent(db.intents, db.nextId);
    if oldest.Some? {
      var next := RetainPhase(db, oldest.value);
      PhaseProgresses(db, oldest.value);
      RetainPhaseKeeps(cfg, db, oldest.value);
      if t in db.intents && db.intents[t].paths == files {
        PhaseProgress(cfg, db, oldest.value, t);
      } else {
        RemovedStay(db, oldest.value, files, t);
      }
      DrainRemoves(cfg, next, t, files);
    }
  }

  lemma IntentsKnown(db: Db)
    requires Referenced(db)
    ensures forall t :: t in db.intents ==> t < db.nextId
  {
    forall t | t in db.intents ensures t < db.nextId {
      assert IntentSound(db, t, db.intents[t]);
    }
  }

  lemma {:induction false} DrainEmpties(cfg: Config, db: Db)
    requires Inv(cfg, db)
    ensures Inv(cfg, Drain(db)) && Drain(db).intents == map[]
    decreases PhasesLeft(db.intents, db.nextId)
  {
    hide Inv, Advances, RetainPhase;
    InvReferences(cfg, db);
    IntentsKnown(db);
    var oldest := OldestIntent(db.intents, db.nextId);
    if oldest.Some? {
      PhaseProgresses(db, oldest.value);
      RetainPhaseKeeps(cfg, db, oldest.value);
      DrainEmpties(cfg, RetainPhase(db, oldest.value));
    }
  }

  /** What an interrupted pass left to finish, or a new pass finds. */
  predicate Due(db: Db, cfg: Config, t: TaskId, now: Time) {
    t in db.intents || Retirable(db, cfg, t, now)
  }

  /** The artifacts recorded for `t` when it was marked, and those of the attempts it still has. */
  function Artifacts(db: Db, t: TaskId): set<AttemptId> {
    ResultPaths(db.attempts, t) + if t in db.intents then db.intents[t].paths else {}
  }

  lemma MarkedPaths(cfg: Config, db: Db, now: Time, t: TaskId)
    requires Inv(cfg, db) && Due(db, cfg, t, now)
    ensures var db1 := RetainMark(db, cfg, now); t in db1.intents && Artifacts(db, t) <= db1.intents[t].paths
  {
    hide Inv, Retirable;
    InvReferences(cfg, db);
    if t in db.intents {
      assert IntentSound(db, t, db.intents[t]);
      forall p | p in ResultPaths(db.attempts, t) ensures p in db.intents[t].paths {
        var a :| a in db.attempts && db.attempts[a].task == t && db.attempts[a].resultPath == Some(p);
        assert Covers(db.intents[t].paths, db.attempts[a]);
      }
    } else {
      InTasks(db, cfg, t, now);
    }
    hide ResultPaths;
  }

  /** From any state, also one that interrupted passes left, an uninterrupted retention pass ends with
      no intent and with nothing of any task that was due: no row, no attempt, no artifact. */
  lemma RetentionCompletes(cfg: Config, db: Db, now: Time)
    requires Inv(cfg, db)
    ensures var y := RetainPurge(Drain(RetainMark(db, cfg, now)), cfg, now);
            && y.intents == map[]
            && forall t :: Due(db, cfg, t, now) ==> t !in y.tasks && !Attempted(y.attempts, t) && Artifacts(db, t) !! y.files
  {
    hide Inv, Advances, Drain, Due, Artifacts, RetainMark, Attempted;
    var db1 := RetainMark(db, cfg, now);
    RetainMarkKeeps(cfg, db, now);
    DrainEmpties(cfg, db1);
    forall t | Due(db, cfg, t, now)
      ensures t !in Drain(db1).tasks && !Attempted(Drain(db1).attempts, t) && Artifacts(db, t) !! Drain(db1).files
    {
      MarkedPaths(cfg, db, now, t);
      DrainRemoves(cfg, db1, t, db1.intents[t].paths);
    }
  }

  lemma InTasks(db: Db, cfg: Config, t: TaskId, now: Time)
    requires Retirable(db, cfg, t, now)
    ensures t in db.tasks
  {
  }

  // -------------------------------------------------------------- verified success

  /** Steps other than a commit decide no success. */
  predicate Undecided(x: Db, y: Db) {
    Successes(x.tasks, y.tasks, None)
  }

  lemma CallerUndecided(db: Db, key: Label, raw: Raw, t: TaskId)
    ensures Undecided(db, Submit(db, key, raw).0) && Undecided(db, CreateWorkflow(db, key, raw).0)
  {
    hide ValidSpec, ValidWorkflow, PlannerSpec;
  }

  lemma CancelOpenUndecided(db: Db, t: TaskId)
    requires t in db.tasks
    ensures Undecided(db, CancelOpen(db, t))
  {
  }

  lemma CancelUndecided(db: Db, key: Label, t: TaskId)
    ensures Undecided(db, StoreOps.Cancel(db, t, key).0)
  {
    hide CancelOpen;
    if t in db.tasks {
      CancelOpenUndecided(Record(db, key, Command(t, CancelPayload(t), db.clock, None)), t);
    }
  }

  lemma RetainUndecided(cfg: Config, db: Db, t: TaskId, now: Time)
    ensures Undecided(db, RetainMark(db, cfg, now)) && Undecided(db, RetainPurge(db, cfg, now))
    ensures t in db.intents ==> Undecided(db, RetainPhase(db, t))
  {
    hide Retirable, ResultPaths, DeleteDependents;
  }

  lemma ClaimTasks(db: Db, a: AttemptId, w: WorkerId, identified: bool)
    ensures ClaimLaunch(db, a, w, identified).0.tasks == db.tasks && ClaimLaunch(db, a, w, identified).0.commands == db.commands
    ensures ClaimLaunch(db, a, w, identified).0.roots == db.roots
  {
    hide Permitted;
  }

  lemma ResolveTasks(db: Db, a: AttemptId, confirmed: bool)
    ensures Resolve(db, a, confirmed).0.tasks == db.tasks && Resolve(db, a, confirmed).0.commands == db.commands
    ensures Resolve(db, a, confirmed).0.roots == db.roots
  {
  }

  lemma ObservationTasks(db: Db, a: AttemptId, sequence: nat, state: AttemptState, r: Report)
    requires a in db.attempts
    ensures var db1 := Observation(db, a, sequence, state, r); db1.tasks == db.tasks && db1.commands == db.commands && db1.roots == db.roots
  {
    hide UsageConflict, ObservedRow;
  }

  lemma ObserveTasks(db: Db, a: AttemptId, w: WorkerId, sequence: nat, state: AttemptState, r: Report)
    ensures var db1 := Observe(db, a, w, sequence, state, r).0; db1.tasks == db.tasks && db1.commands == db.commands && db1.roots == db.roots
  {
    hide Outdated, Transition, Observation;
    if a in db.attempts {
      ObservationTasks(db, a, sequence, state, r);
    }
  }

  lemma ReportTasks(m: Machine, a: AttemptId, state: AttemptState, sha: Option<Label>, kind: Option<RunnerKind>, withTotal: bool)
    ensures var db := ReportStep(m, a, state, sha, kind, withTotal).db; db.tasks == m.db.tasks && db.commands == m.db.commands && db.roots == m.db.roots
  {
    hide Observe, InUnknown, InLaunch, RunnerReport;
    if a in m.runners {
      var r := m.runners[a].(sequence := m.runners[a].sequence + 1);
      ObserveTasks(m.db, a, r.worker, r.sequence, state, RunnerReport(r, sha, kind, withTotal));
    }
  }

  lemma PlanUndecided(db: Db, r: TaskId, doc: PlanDoc, replan: bool, key: Option<Label>)
    ensures Undecided(db, SettlePlanCommand(db, r, doc, replan, key).0)
  {
    hide SettlePlan, KnownUsage, Rotation;
    if r in db.roots {
      SettlePlanSteady(db, r, doc, replan);
    }
  }

  /** A task becomes Succeeded only through a commit whose verdict accepts the current attempt and
      equals, field by field, the rows as they are at that commit. */
  lemma SuccessOnlyByVerdict(cfg: Config, m: Machine, step: Step, t: TaskId)
    requires Sound(cfg, m)
    requires var y := Next(cfg, m, step).db; t in y.tasks && y.tasks[t].status.Succeeded?
    requires !(t in m.db.tasks && m.db.tasks[t].status.Succeeded?)
    ensures step.DoCommit? && step.valid && step.snapshot in m.flight && step.snapshot.task == t
    ensures Awaits(m.db, step.snapshot)
            && var v, row, task := VerdictOf(step.snapshot, true), m.db.attempts[step.snapshot.attempt], m.db.tasks[t];
               v.attempt == task.current.value && v.resultPath == row.resultPath && v.resultSha == row.resultSha
               && v.spec == task.spec && v.desired == task.desired == Action.Run
  {
    hide Inv, Sound, Next, Commit, SnapSound, Awaits;
    if step.DoCommit? && step.snapshot in m.flight {
      CommitNext(cfg, m, step);
      CommitDecides(cfg, m, step.snapshot, step.valid, step.plan, t);
    } else {
      NextUndecided(cfg, m, step);
    }
  }

  lemma CommitNext(cfg: Config, m: Machine, step: Step)
    requires step.DoCommit? && step.snapshot in m.flight
    ensures Next(cfg, m, step).db == Commit(m.db, step.snapshot, VerdictOf(step.snapshot, step.valid), step.plan)
  {
    hide Commit, InUnknown, InLaunch;
  }

  lemma CommitDecides(cfg: Config, m: Machine, s: Snapshot, valid: bool, plan: Option<PlanDoc>, t: TaskId)
    requires Sound(cfg, m) && s in m.flight
    requires var y := Commit(m.db, s, VerdictOf(s, valid), plan); t in y.tasks && y.tasks[t].status.Succeeded?
    requires !(t in m.db.tasks && m.db.tasks[t].status.Succeeded?)
    ensures valid && s.task == t && Awaits(m.db, s)
    ensures var v, row, task := VerdictOf(s, true), m.db.attempts[s.attempt], m.db.tasks[t];
            v.attempt == task.current.value && v.resultPath == row.resultPath && v.resultSha == row.resultSha
            && v.spec == task.spec && v.desired == task.desired == Action.Run
  {
    hide Inv, Sound, Commit, Rotation, KnownUsage, Settle, SettlePlan, Awaits;
    CommitSteadily(cfg, m, s, valid, plan);
    FlightSound(cfg, m, s);
    VerdictExact(m.db, s);
    CommitRefinesAtomic(m.db, s, valid, plan);
    SoundDb(cfg, m);
    if m.db.tasks[t].desired.Cancel? {
      CommitKeeps(cfg, m.db, s, valid, plan);
      var y := Commit(m.db, s, VerdictOf(s, valid), plan);
      CancelNeverSucceeds(cfg, m.db, y, t);
    }
  }

  lemma CancelNeverSucceeds(cfg: Config, x: Db, y: Db, t: TaskId)
    requires Inv(cfg, y) && Advances(x, y) && t in x.tasks && t in y.tasks && x.tasks[t].desired.Cancel?
    ensures !y.tasks[t].status.Succeeded?
  {
    hide Inv;
    SoundTask(cfg, y, t);
  }

  lemma VerdictExact(db: Db, s: Snapshot)
    requires SnapSound(db, s)
    ensures Awaits(db, s) ==> s.task in db.tasks && s.attempt in db.attempts && db.tasks[s.task].current == Some(s.attempt)
                              && s.arow.resultPath == db.attempts[s.attempt].resultPath && s.arow.resultSha == db.attempts[s.attempt].resultSha
                              && s.row.spec == db.tasks[s.task].spec && (db.tasks[s.task].desired.Run? ==> s.row.desired.Run?)
  {
  }

  lemma NextUndecided(cfg: Config, m: Machine, step: Step)
    requires Sound(cfg, m) && !(step.DoCommit? && step.snapshot in m.flight)
    ensures Undecided(m.db, Next(cfg, m, step).db)
  {
    hide Inv, Sound, Submit, CreateWorkflow, StoreOps.Cancel, ProcessNext, Rotation, KnownUsage, Undecided, InUnknown, InLaunch;
    hide Resolve, SettlePlanCommand, Deliver, RetainMark, RetainPhase, RetainPurge;
    SameUndecided(m.db, m.db);
    match step
    case Wait(d) => SameUndecided(m.db, m.db.(clock := m.db.clock + d));
    case DoSubmit(key, raw) => CallerUndecided(m.db, key, raw, 0);
    case DoCreate(key, raw) => CallerUndecided(m.db, key, raw, 0);
    case DoCancel(t, key) => CancelUndecided(m.db, key, t);
    case DoResolve(a, confirmed) => ResolveTasks(m.db, a, confirmed); SameUndecided(m.db, Resolve(m.db, a, confirmed).0);
    case DoSettlePlan(r, doc, replan, key) => PlanUndecided(m.db, r, doc, replan, key);
    case DoDeliver(t, sound) => DeliverSteady(m.db, t, sound); SteadyUndecided(m.db, Deliver(m.db, t, sound).0);
    case DoRetainMark(now) => RetainUndecided(cfg, m.db, 0, now);
    case DoRetainPhase(t) => RetainUndecided(cfg, m.db, t, 0.0);
    case DoRetainPurge(now) => RetainUndecided(cfg, m.db, 0, now);
    case _ => ProcessUndecided(cfg, m, step);
  }

  lemma ProcessUndecided(cfg: Config, m: Machine, step: Step)
    requires Sound(cfg, m) && !(step.DoCommit? && step.snapshot in m.flight)
    ensures Undecided(m.db, ProcessNext(cfg, m, step).db)
  {
    hide Inv, Sound, RegisterWorker, HeartbeatWorker, ClaimLaunch, ReportStep, Tick, Commit, RequestStep, Steady, Undecided, InUnknown, InLaunch;
    SoundDb(cfg, m);
    SameUndecided(m.db, m.db);
    match step
    case DoRegister(w, runtimes, slots, allowWrite) =>
      WorkerTasks(m.db, w, runtimes, slots, allowWrite);
      SameUndecided(m.db, RegisterWorker(m.db, w, runtimes, slots, allowWrite).0);
    case DoHeartbeat(w) => WorkerTasks(m.db, w, {}, 0, false); SameUndecided(m.db, HeartbeatWorker(m.db, w));
    case DoClaim(a, w, identified) => ClaimTasks(m.db, a, w, identified); SameUndecided(m.db, ClaimLaunch(m.db, a, w, identified).0);
    case DoRequest(a, response) => RequestFrame(m, a, response);
    case DoPublish(a) => SameUndecided(m.db, m.db.(files := m.db.files + {a}));
    case DoReport(a, state, sha, kind, withTotal) =>
      ReportTasks(m, a, state, sha, kind, withTotal);
      SameUndecided(m.db, ReportStep(m, a, state, sha, kind, withTotal).db);
    case DoTick(env) => TickSteady(cfg, m.db, env); SteadyUndecided(m.db, Tick(m.db, cfg, env).0);
    case _ =>
  }

  lemma SameUndecided(x: Db, y: Db)
    requires y.tasks == x.tasks
    ensures Undecided(x, y)
  {
  }

  lemma SteadyUndecided(x: Db, y: Db)
    requires Steady(x, y, None)
    ensures Undecided(x, y)
  {
    hide KnownUsage, Rotation;
  }

  lemma WorkerTasks(db: Db, w: WorkerId, runtimes: set<Label>, slots: nat, allowWrite: bool)
    ensures RegisterWorker(db, w, runtimes, slots, allowWrite).0.tasks == db.tasks && HeartbeatWorker(db, w).tasks == db.tasks
  {
  }
}
