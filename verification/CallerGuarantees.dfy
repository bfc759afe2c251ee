/** What each command of a caller, an operator or a worker does when it is not a repetition, and which rows
    retention may touch. */
module CallerGuarantees {
  import opened Types
  import opened StoreOps
  import opened WorkflowOps
  import opened System
  import opened Invariant
  import opened PairProofs
  import opened TaskProofs
  import opened StoreProofs
  import opened RunProofs
  import opened RunGuarantees

  // -------------------------------------------------------------------- submission

  /** A task as it is accepted: wanted, waiting, unused, and due from now to its deadline. */
  predicate Newborn(task: Task, spec: Spec, now: Time) {
    && task.spec == spec && task.status.Pending? && task.desired.Run? && task.current.None?
    && task.submittedAt == now == task.nextRunAt && task.deadline == now + spec.budget.deadlineSeconds
    && task.finishedAt.None? && task.reason.None? && task.resultPath.None? && task.resultSha.None?
    && task.tokensUsed == 0 && !task.usageUnknown
  }

  /** One new task and the record of the command that made it; nothing else but the event log differs. */
  predicate Accepts(x: Db, y: Db, spec: Spec, key: Label, raw: Raw) {
    var t := x.nextId;
    && t in y.tasks && Newborn(y.tasks[t], spec, x.clock)
    && key in y.commands && y.commands[key].task == t && y.commands[key].payload == SubmitPayload(raw) && y.commands[key].acceptedAt == x.clock
    && y == x.(tasks := x.tasks[t := y.tasks[t]], commands := x.commands[key := y.commands[key]], nextId := t + 1,
               roots := y.roots, events := y.events)
  }

  /** A fresh key submits exactly the valid documents. */
  lemma SubmitAccepts(db: Db, key: Label, raw: Raw)
    requires key !in db.commands
    ensures var (y, outcome) := Submit(db, key, raw);
            if raw.sound && ValidSpec(raw.spec) then outcome == Receipted(db.nextId, false) && Accepts(db, y, raw.spec, key, raw) && y.roots == db.roots
            else y == db && outcome == Outcome.Refused(Invalid)
  {
    hide ValidSpec;
  }

  /** The planner of a workflow document: read-only, with at most the two reading tools, its own runtime,
      model, budget and content, and everything else as the document's. */
  ghost predicate PlannerOf(spec: Spec, raw: Raw, w: WorkflowConfig) {
    && spec.sandbox.ReadOnly? && (forall tool :: tool in spec.tools <==> tool in raw.spec.tools && (tool == LIST_FILES || tool == READ_FILE))
    && spec.runtime == w.plannerRuntime && spec.model == w.plannerModel && spec.budget == w.plannerBudget && spec.content == w.plannerContent
    && spec.workspace == raw.spec.workspace && spec.retry == raw.spec.retry
  }

  /** A root that has planned nothing and spent nothing yet, within the limits its document names. */
  predicate NewRoot(root: Root, raw: Raw, w: WorkflowConfig) {
    && root.authority == raw.spec && root.maxChildren == w.maxChildren && root.maxTokens == w.maxTokens && root.maxAttempts == w.maxAttempts
    && root.state.Planning? && root.iteration == 0 == root.planRevision && root.plans == []
    && root.tokensUsed == 0 == root.attemptsUsed && root.reason.None?
  }

  lemma PlannerFields(raw: Raw, w: WorkflowConfig)
    ensures PlannerOf(PlannerSpec(raw, w), raw, w)
  {
  }

  /** The specification of a planner is determined by its document. */
  lemma PlannerUnique(x: Spec, y: Spec, raw: Raw, w: WorkflowConfig)
    requires PlannerOf(x, raw, w) && PlannerOf(y, raw, w)
    ensures x == y
  {
    assert x.tools == y.tools;
  }

  /** A fresh key creates a workflow exactly when its root, its planner and its limits are valid: the root takes the
      document's authority and limits, and its planner is an ordinary new task. */
  lemma CreateAccepts(db: Db, key: Label, raw: Raw, planner: Spec)
    requires key !in db.commands && (raw.workflow.Some? ==> PlannerOf(planner, raw, raw.workflow.value))
    ensures var (y, outcome) := CreateWorkflow(db, key, raw);
            if raw.sound && ValidSpec(raw.spec) && raw.workflow.Some? && raw.workflow.value.enabled
               && ValidWorkflow(raw.workflow.value) && ValidSpec(planner)
            then
              && outcome == Receipted(db.nextId, false) && Accepts(db, y, planner, key, raw)
              && db.nextId in y.roots && NewRoot(y.roots[db.nextId], raw, raw.workflow.value)
              && y.roots == db.roots[db.nextId := y.roots[db.nextId]]
            else y == db && outcome == Outcome.Refused(Invalid)
  {
    hide ValidSpec, ValidWorkflow, PlannerSpec, PlannerOf;
    if raw.workflow.Some? {
      PlannerFields(raw, raw.workflow.value);
      PlannerUnique(planner, PlannerSpec(raw, raw.workflow.value), raw, raw.workflow.value);
    }
  }

  // ------------------------------------------------------------------- cancellation

  /** What a first cancellation leaves of its task. */
  predicate CancelledRow(task: Task, after: Task, now: Time) {
    && (Terminal(task.status) ==> after == task)
    && (task.status.Pending? ==>
          after == task.(desired := Action.Cancel, reason := Some(UserCancelled), status := Status.Cancelled, finishedAt := Some(now)))
    && (task.status.Scheduled? || task.status.Running? ==> after == task.(desired := Action.Cancel, reason := Some(UserCancelled)))
  }

  lemma CancelRecorded(db: Db, t: TaskId, key: Label)
    requires t in db.tasks && key !in db.commands
    ensures var (y, outcome) := StoreOps.Cancel(db, t, key);
            && outcome == Receipted(t, false)
            && t in y.tasks && CancelledRow(db.tasks[t], y.tasks[t], db.clock)
            && key in y.commands && y.commands[key].task == t && y.commands[key].payload == CancelPayload(t)
            && y == db.(tasks := db.tasks[t := y.tasks[t]], commands := db.commands[key := y.commands[key]], events := y.events)
  {
    assert db.tasks[t := db.tasks[t]] == db.tasks;
  }

  lemma ReachedStep(cfg: Config, before: seq<Step>, step: Step)
    ensures Reached(cfg, before + [step]) == Next(cfg, Reached(cfg, before), step)
  {
    hide Next;
    assert (before + [step])[..|before|] == before;
  }

  /** The first cancellation under a key takes hold in its own commit, whatever the state it meets: an open task
      carries cancel intent and keeps its attempt, a Pending one is Cancelled at once, a finished one stays, and no
      other task and no attempt changes.  After it, over any continuation, the task never succeeds unless it
      already had, and nothing new is attempted for it. */
  lemma CancelTakesHold(cfg: Config, before: seq<Step>, after: seq<Step>, t: TaskId, key: Label)
    requires t in Reached(cfg, before).db.tasks && key !in Reached(cfg, before).db.commands
    ensures var x := Reached(cfg, before).db;
            var y := Reached(cfg, before + [DoCancel(t, key)]).db;
            && t in y.tasks && CancelledRow(x.tasks[t], y.tasks[t], x.clock)
            && y.tasks == x.tasks[t := y.tasks[t]] && y.attempts == x.attempts && y.roots == x.roots && y.children == x.children
    ensures var x := Reached(cfg, before).db;
            var y := Reached(cfg, before + [DoCancel(t, key)]).db;
            var z := Exec(cfg, Reached(cfg, before + [DoCancel(t, key)]), after).db;
            && (t in z.tasks && z.tasks[t].status.Succeeded? ==> x.tasks[t].status.Succeeded?)
            && (forall a :: a in z.attempts && z.attempts[a].task == t ==> a in x.attempts)
  {
    hide Reached, StoreOps.Cancel, InUnknown, InLaunch, Sound, Inv;
    ReachedSound(cfg, before);
    SoundTask(cfg, Reached(cfg, before).db, t);
    ReachedStep(cfg, before, DoCancel(t, key));
    CancelRecorded(Reached(cfg, before).db, t, key);
    IntentAbsorbs(cfg, before + [DoCancel(t, key)], after, t);
  }

  /** Without a task there is nothing to cancel, and nothing is recorded. */
  lemma CancelUnknown(db: Db, t: TaskId, key: Label)
    requires t !in db.tasks && key !in db.commands
    ensures StoreOps.Cancel(db, t, key) == (db, Outcome.Refused(NotFound))
  {
  }

  // ----------------------------------------------------------- workers and operators

  /** Registration and heartbeats touch one worker's row, and every row says when its worker was last seen. */
  lemma WorkersSeen(db: Db, w: WorkerId, runtimes: set<Label>, slots: nat, allowWrite: bool)
    ensures var (y, error) := RegisterWorker(db, w, runtimes, slots, allowWrite);
            && (error.None? <==> w > 0 && runtimes != {} && 1 <= slots <= 128)
            && (error.Some? ==> y == db && error == Some(Invalid))
            && (error.None? ==> y == db.(workers := db.workers[w := Worker(runtimes, slots, allowWrite, db.clock)]))
    ensures var y := HeartbeatWorker(db, w);
            && y.workers.Keys == db.workers.Keys && y == db.(workers := y.workers)
            && (forall v :: v in db.workers && v != w ==> y.workers[v] == db.workers[v])
            && (w in db.workers ==> y.workers[w] == db.workers[w].(lastSeen := db.clock))
  {
  }

  /** Only an Unknown attempt can be resolved, only with a confirmation, and only as a permanent failure that the
      next tick settles. */
  lemma ResolveFails(db: Db, a: AttemptId, confirmed: bool)
    ensures var (y, error) := Resolve(db, a, confirmed);
            && (error.None? <==> confirmed && a in db.attempts && db.attempts[a].state.Unknown?)
            && (error.Some? ==> y == db && error.value == if !confirmed then Invalid else if a !in db.attempts then NotFound else Conflict)
            && (error.None? ==>
                  && a in y.attempts && y == db.(attempts := db.attempts[a := y.attempts[a]], events := y.events)
                  && y.attempts[a].state.Failed? && y.attempts[a].kind == Some(Permanent) && y.attempts[a].finishedAt == Some(db.clock)
                  && y.attempts[a].sequence == db.attempts[a].sequence + 1
                  && y.attempts[a] == db.attempts[a].(state := y.attempts[a].state, kind := y.attempts[a].kind, sequence := y.attempts[a].sequence,
                                                      heartbeat := db.clock, finishedAt := y.attempts[a].finishedAt))
  {
  }

  // ---------------------------------------------------------------------- retention

  /** Finished for at least the retention age, and no part of any workflow. */
  predicate Aged(cfg: Config, db: Db, t: TaskId, now: Time) {
    && t in db.tasks && (db.tasks[t].status.Succeeded? || db.tasks[t].status.Failed? || db.tasks[t].status.Cancelled?)
    && db.tasks[t].finishedAt.Some? && now - db.tasks[t].finishedAt.value >= cfg.retention
    && t !in db.roots && forall c :: c in db.children ==> c.task != t
  }

  /** Retention takes up exactly the aged tasks, with every artifact of their attempts. */
  lemma RetentionTakesAged(cfg: Config, db: Db, now: Time, t: TaskId)
    ensures var y := RetainMark(db, cfg, now);
            && y == db.(intents := y.intents)
            && (t in y.intents <==> t in db.intents || Aged(cfg, db, t, now))
            && (t in db.intents ==> y.intents[t] == db.intents[t])
            && (t in y.intents && t !in db.intents ==>
                  && y.intents[t].stage.Dependents? && y.intents[t].createdAt == now
                  && forall a :: a in db.attempts && db.attempts[a].task == t && db.attempts[a].resultPath.Some? ==>
                                 db.attempts[a].resultPath.value in y.intents[t].paths)
  {
    assert Named(db.children, t) <==> exists c :: c in db.children && c.task == t;
  }

  /** The rows of two databases that do not concern `t` are the same. */
  ghost predicate OnlyOf(x: Db, y: Db, t: TaskId) {
    && y.tasks.Keys <= x.tasks.Keys && (forall u :: u in x.tasks && u != t ==> u in y.tasks && y.tasks[u] == x.tasks[u])
    && y.attempts.Keys <= x.attempts.Keys
    && (forall a :: a in x.attempts && x.attempts[a].task != t ==> a in y.attempts && y.attempts[a] == x.attempts[a])
    && (forall a :: a in x.outbox && (a in x.attempts ==> x.attempts[a].task != t) ==> a in y.outbox && y.outbox[a] == x.outbox[a])
    && (forall p :: p in x.transfers && p.0 != t && p.1 != t ==> p in y.transfers && y.transfers[p] == x.transfers[p])
    && (forall c :: c in x.children && c.task != t ==> c in y.children)
    && (forall e :: e in x.events && e.task != t ==> e in y.events)
    && (forall u :: u in x.intents && u != t ==> u in y.intents && y.intents[u] == x.intents[u])
    && y.workers == x.workers && y.roots == x.roots && y.commands == x.commands && y.clock == x.clock && y.nextId == x.nextId
  }

  lemma DependentsOnlyOf(db: Db, t: TaskId)
    ensures OnlyOf(db, DeleteDependents(db, t), t) && DeleteDependents(db, t).intents == db.intents
  {
  }

  lemma OwnRows(x: Db, y: Db, z: Db, t: TaskId)
    requires OnlyOf(x, y, t) && z == y.(tasks := z.tasks, intents := z.intents, files := z.files)
    requires z.tasks == y.tasks || z.tasks == y.tasks - {t}
    requires forall u :: u in y.intents && u != t ==> u in z.intents && z.intents[u] == y.intents[u]
    ensures OnlyOf(x, z, t)
  {
  }

  lemma NoRows(db: Db, t: TaskId)
    ensures OnlyOf(db, db, t)
  {
  }

  /** A phase of retention touches only rows of its own task, and only the artifacts its intent names. */
  lemma PhaseLeavesOthers(db: Db, t: TaskId)
    requires t in db.intents
    ensures var y := RetainPhase(db, t);
            && OnlyOf(db, y, t)
            && (forall f :: f in db.files && f !in db.intents[t].paths ==> f in y.files)
            && (!db.intents[t].stage.Artifact? ==> y.files == db.files)
            && (db.intents[t].stage.Dependents? ==> y.tasks == db.tasks)
  {
    hide DeleteDependents, OnlyOf;
    DependentsOnlyOf(db, t);
    NoRows(db, t);
    OwnRows(db, if db.intents[t].stage.Artifact? then db else DeleteDependents(db, t), RetainPhase(db, t), t);
  }

  /** A tombstone goes exactly when its horizon has passed and its task is gone. */
  lemma PurgesExpired(cfg: Config, db: Db, now: Time, key: Label)
    ensures var y := RetainPurge(db, cfg, now);
            && y == db.(commands := y.commands)
            && (key in y.commands <==>
                  key in db.commands && (db.commands[key].task in db.tasks || now <= db.commands[key].acceptedAt + cfg.horizon))
            && (key in y.commands ==> y.commands[key] == db.commands[key])
  {
  }
}
