/** Reconciliation, settlement, retry and placement: the manager's transactions. */
module ManagerOps {
  import opened Types
  import opened StoreOps
  import opened WorkflowOps

  /** Facts about the world that one tick observes: live runners and buildable payloads. */
  datatype Env = Env(alive: set<AttemptId>, sound: set<TaskId>)

  /** Rows a manager carries out of a tick to validate outside any transaction. */
  datatype Snapshot = Snapshot(task: TaskId, row: Task, attempt: AttemptId, arow: Attempt)

  function Finish(task: Task, status: Status, reason: Option<Reason>, now: Time): Task {
    task.(status := status, reason := reason, finishedAt := Some(now), resultPath := None, resultSha := None)
  }

  /** A cancelled task reports an exceeded deadline as a failure. */
  function FinishCancelled(task: Task, now: Time): Task {
    Finish(task, if task.reason == Some(DeadlineExceeded) then Status.Failed else Status.Cancelled, task.reason, now)
  }

  // ----------------------------------------------------------------- settlement

  function Pow2(n: nat): nat {
    if n == 0 then 1 else 2 * Pow2(n - 1)
  }

  function RetryDelay(retry: Retry, executed: nat): real {
    if executed == 0 then retry.backoffSeconds / 2.0 else retry.backoffSeconds * Pow2(executed - 1) as real
  }

  predicate MayRetry(task: Task, kind: Option<Kind>, executed: nat, now: Time) {
    var retry := task.spec.retry;
    var ceiling := task.spec.budget.maxTokens;
    && retry.replaySafe && kind.Some? && kind.value in retry.on
    && executed < retry.maxAttempts && now + RetryDelay(retry, executed) < task.deadline
    && (ceiling.None? || (!task.usageUnknown && task.tokensUsed < ceiling.value))
  }

  function Requeue(task: Task, at: Time, reason: Reason): Task {
    task.(status := Pending, current := None, nextRunAt := at, reason := Some(reason))
  }

  /** The rows of a task and its current attempt after settlement.  `accepted` is a
      validation verdict without an error; `executed` counts the task's executions. */
  function SettledRows(task: Task, row: Attempt, accepted: bool, executed: nat, now: Time): (Task, Attempt) {
    var row1 := row.(reserved := false, settled := true);
    var task1 := task.(tokensUsed := task.tokensUsed + row.knownTokens, usageUnknown := task.usageUnknown || row.tokens.None?);
    if task.desired.Cancel? then (FinishCancelled(task1, now), row1)
    else if row.kind == Some(NotStarted) then (Requeue(task1, now, WorkerLost), row1)
    else if row.state.Succeeded? && accepted then
      (Finish(task1, Status.Succeeded, Some(OutputValidated), now).(resultPath := row.resultPath, resultSha := row.resultSha), row1)
    else
      var kind := if row.state.Succeeded? then Some(Validation) else row.kind;
      (if MayRetry(task1, kind, executed, now)
       then Requeue(task1, now + RetryDelay(task.spec.retry, executed), AttemptError(kind))
       else Finish(task1, Status.Failed, Some(AttemptError(kind)), now),
       row1.(kind := kind))
  }

  /** What a settlement logs: a rejected result, then the task's fate. */
  function SettleLog(t: TaskId, task: Task, row: Attempt, accepted: bool, task': Task): seq<Event> {
    (if row.state.Succeeded? && !accepted && task.desired.Run? && row.kind != Some(NotStarted) then [Event(t, ResultRejected)] else [])
    + [Event(t, if !task'.status.Pending? then TaskFinished else if row.kind == Some(NotStarted) then TaskRequeued else RetryScheduled)]
  }

  predicate Settleable(db: Db, t: TaskId) {
    t in db.tasks && db.tasks[t].current.Some? && db.tasks[t].current.value in db.attempts
  }

  /** Terminal execution evidence releases the reservation and accounts usage once. */
  function Settle(db: Db, t: TaskId, accepted: bool): Db
    requires Settleable(db, t)
  {
    var a := db.tasks[t].current.value;
    var row := db.attempts[a];
    var (task', row') := SettledRows(db.tasks[t], row, accepted, Executions(db.attempts, t), db.clock);
    db.(tasks := db.tasks[t := task'], attempts := db.attempts[a := row'],
        roots := RecordUsage(db.roots, db.children, t, row.knownTokens),
        events := db.events + SettleLog(t, db.tasks[t], row, accepted, task'))
  }

  /** Settlement with a verdict; an accepted planner's plan joins the same commit.
      `plan` is the planner result read back, None when reading it fails and the
      whole transaction rolls back. */
  ghost function SettleWithPlan(db: Db, t: TaskId, accepted: bool, plan: Option<PlanDoc>): Db
    requires Settleable(db, t)
  {
    var settled := Settle(db, t, accepted);
    if settled.tasks[t].status.Succeeded? && t in db.roots then
      if plan.None? then db else SettlePlan(settled, t, plan.value, false).0
    else settled
  }

  // ---------------------------------------------------------------- reconciliation

  predicate SucceededInTime(db: Db, t: TaskId)
    requires t in db.tasks
  {
    var task := db.tasks[t];
    && Settleable(db, t)
    && var row := db.attempts[task.current.value];
       row.state.Succeeded? && row.finishedAt.Some? && row.finishedAt.value <= task.deadline
  }

  /** A passed deadline becomes durable cancel intent unless success came in time. */
  function EnforceDeadline(db: Db, t: TaskId): Db
    requires t in db.tasks
  {
    var task := db.tasks[t];
    if db.clock >= task.deadline && task.desired.Run? && !SucceededInTime(db, t)
    then Log(db.(tasks := db.tasks[t := task.(desired := Action.Cancel, reason := Some(DeadlineExceeded))]), t, TaskDeadline)
    else db
  }

  predicate WorkerLostNow(db: Db, cfg: Config, w: WorkerId) {
    w !in db.workers || db.clock - db.workers[w].lastSeen > cfg.workerTtl
  }

  /** What one look at the current attempt changes: a Queued one may end unstarted,
      a launched one whose runner is gone becomes Unknown. */
  function ProbedRow(row: Attempt, cancelling: bool, workerLost: bool, alive: bool, now: Time): Attempt {
    if row.state.Queued? then
      if cancelling then CancelledBeforeLaunch(row, Stopped, now)
      else if workerLost then CancelledBeforeLaunch(row, NotStarted, now)
      else row
    else if (row.state.Launching? || row.state.Running?) && !alive then
      row.(state := Unknown, sequence := row.sequence + 1, tokens := None, kind := Some(Uncertain))
    else row
  }

  function ProbeLog(t: TaskId, row: Attempt, row': Attempt): seq<Event> {
    if row'.kind == Some(NotStarted) && row != row' then [Event(t, AttemptWorkerLost)]
    else if row'.state.Unknown? && !row.state.Unknown? then [Event(t, AttemptRunnerLost)]
    else []
  }

  /** Reads the current attempt's state into the database and follows it with the task. */
  function Probe(db: Db, cfg: Config, env: Env, t: TaskId): Db
    requires Settleable(db, t)
  {
    var task := db.tasks[t];
    var a := task.current.value;
    var row := db.attempts[a];
    var row' := ProbedRow(row, task.desired.Cancel?, WorkerLostNow(db, cfg, row.worker), a in env.alive, db.clock);
    var task' := if row'.state.Running? && task.status.Scheduled? then task.(status := Status.Running) else task;
    db.(attempts := db.attempts[a := row'], tasks := db.tasks[t := task'], events := db.events + ProbeLog(t, row, row'))
  }

  /** One iteration of the tick loop; a success is handed out for validation. */
  function Reconcile(db: Db, cfg: Config, env: Env, t: TaskId): (Db, Option<Snapshot>) {
    if t !in db.tasks then (db, None)
    else
    var db1 := EnforceDeadline(db, t);
    var task := db1.tasks[t];
    if task.status.Pending? then
      if task.desired.Cancel? then (Log(db1.(tasks := db1.tasks[t := FinishCancelled(task, db.clock)]), t, TaskFinished), None)
      else (db1, None)
    else if !Settleable(db1, t) then (db1, None)
    else
      var db2 := Probe(db1, cfg, env, t);
      var a := task.current.value;
      var row := db2.attempts[a];
      if !Done(row.state) || row.settled then (db2, None)
      else if row.state.Succeeded? then (db2, Some(Snapshot(t, task, a, row)))
      else (Settle(db2, t, false), None)
  }

  function OpenTasks(db: Db): seq<TaskId> {
    Select(db.nextId, (t: nat) => t in db.tasks && !Terminal(db.tasks[t].status))
  }

  function ReconcileAll(db: Db, cfg: Config, env: Env, ids: seq<TaskId>): (Db, seq<Snapshot>)
  {
    if ids == [] then (db, [])
    else
      var n := |ids| - 1;
      var (db1, snaps) := ReconcileAll(db, cfg, env, ids[..n]);
      var (db2, snap) := Reconcile(db1, cfg, env, ids[n]);
      (db2, if snap.Some? then snaps + [snap.value] else snaps)
  }

  // ------------------------------------------------------------------- placement

  predicate Feasible(db: Db, cfg: Config, spec: Spec, w: WorkerId) {
    && w in db.workers
    && db.workers[w].lastSeen >= db.clock - cfg.workerTtl
    && |ReservedBy(db.attempts, w)| < db.workers[w].slots
    && spec.runtime in db.workers[w].runtimes
    && (spec.sandbox.ReadOnly? || db.workers[w].allowWrite)
  }

  /** Identifiers in ascending order: the source orders workers by id. */
  function Ascending(s: set<nat>): seq<nat> {
    if s == {} then []
    else
      LeastExists(s);
      var x :| x in s && forall y :: y in s ==> x <= y;
      [x] + Ascending(s - {x})
  }

  lemma {:induction false} AscendingHolds(s: set<nat>, x: nat)
    ensures x in Ascending(s) <==> x in s
  {
    if s != {} {
      LeastExists(s);
      var m :| m in s && forall y :: y in s ==> m <= y;
      AscendingHolds(s - {m}, x);
      assert x in [m] + Ascending(s - {m}) <==> x == m || x in Ascending(s - {m});
    }
  }

  lemma {:induction false} AscendingSorted(s: set<nat>)
    ensures forall i, j :: 0 <= i < j < |Ascending(s)| ==> Ascending(s)[i] < Ascending(s)[j]
  {
    if s != {} {
      LeastExists(s);
      var m :| m in s && forall y :: y in s ==> m <= y;
      var rest := Ascending(s - {m});
      AscendingSorted(s - {m});
      forall i | 0 <= i < |rest| ensures m < rest[i] {
        AscendingHolds(s - {m}, rest[i]);
      }
      assert Ascending(s) == [m] + rest;
    }
  }

  lemma LeastExists(s: set<nat>)
    requires s != {}
    ensures exists x :: x in s && forall y :: y in s ==> x <= y
  {
    var z :| z in s;
    LeastBelow(s, z);
  }

  lemma {:induction false} LeastBelow(s: set<nat>, z: nat)
    requires z in s
    ensures exists x :: x in s && forall y :: y in s ==> x <= y
  {
    if y :| y in s && y < z {
      LeastBelow(s, y);
    }
  }

  function FeasibleWorkers(db: Db, cfg: Config, spec: Spec): seq<WorkerId> {
    Ascending(set w | w in db.workers && Feasible(db, cfg, spec, w))
  }

  function FirstAfter(cursor: WorkerId, ws: seq<WorkerId>): Option<WorkerId> {
    if ws == [] then None
    else if ws[0] > cursor then Some(ws[0])
    else FirstAfter(cursor, ws[1..])
  }

  /** The first feasible worker after the cursor, or the first of all. */
  function Pick(cursor: WorkerId, feasible: seq<WorkerId>): WorkerId
    requires feasible != []
  {
    FirstAfter(cursor, feasible).GetOr(feasible[0])
  }

  function NewAttempt(t: TaskId, number: nat, w: WorkerId, now: Time): Attempt {
    Attempt(t, number, w, Queued, true, false, 0, None, None, now, None, None, None, None, 0)
  }

  /** Reserves one attempt of `t` on worker `w`. */
  function Place(db: Db, t: TaskId, w: WorkerId, feasible: seq<WorkerId>): Db
    requires t in db.tasks
  {
    var a := db.nextId;
    Log(db.(attempts := db.attempts[a := NewAttempt(t, |AttemptsOf(db.attempts, t)| + 1, w, db.clock)],
            outbox := db.outbox[a := false],
            tasks := db.tasks[t := db.tasks[t].(status := Scheduled, current := Some(a), reason := None)],
            placements := db.placements + [Placement(w, feasible)],
            lastWorker := w, nextId := db.nextId + 1), t, TaskScheduled)
  }

  /** One iteration of the placement loop, below the capacity limit. */
  function ScheduleOne(db: Db, cfg: Config, env: Env, t: TaskId): Db {
    if t !in db.tasks || FeasibleWorkers(db, cfg, db.tasks[t].spec) == [] then db
    else
      var feasible := FeasibleWorkers(db, cfg, db.tasks[t].spec);
      var (db1, dependency) := Deliver(db, t, env.sound);
      if !dependency.Ready? then db1
      else
        var (db2, claimed) := ClaimAttempt(db1, t);
        if !claimed || t !in db2.tasks then db2 else Place(db2, t, Pick(db.lastWorker, feasible), feasible)
  }

  predicate Eligible(db: Db, t: TaskId) {
    && t in db.tasks && db.tasks[t].status.Pending? && db.tasks[t].desired.Run?
    && db.tasks[t].nextRunAt <= db.clock
  }

  function EligibleTasks(db: Db): seq<TaskId> {
    Select(db.nextId, (t: nat) => Eligible(db, t))
  }

  /** The loop stops at the first task that finds the capacity used up. */
  function ScheduleAll(db: Db, cfg: Config, env: Env, ids: seq<TaskId>): Db
  {
    if ids == [] then db
    else
      var n := |ids| - 1;
      var db1 := ScheduleAll(db, cfg, env, ids[..n]);
      if |Reserved(db1.attempts)| >= cfg.maxActive then db1 else ScheduleOne(db1, cfg, env, ids[n])
  }

  function Schedule(db: Db, cfg: Config, env: Env): Db {
    ScheduleAll(db, cfg, env, EligibleTasks(db))
  }

  /** The tick transaction and the snapshots it hands out. */
  function Tick(db: Db, cfg: Config, env: Env): (Db, seq<Snapshot>) {
    var (db1, snaps) := ReconcileAll(db, cfg, env, OpenTasks(db));
    (Schedule(db1, cfg, env), snaps)
  }

  // ------------------------------------------------------- optimistic settlement

  /** A verdict reached outside any transaction, bound to the rows it inspected. */
  datatype Verdict = Verdict(attempt: AttemptId, resultPath: Option<AttemptId>, resultSha: Option<Label>,
                             spec: Spec, desired: Action, valid: bool)

  function VerdictOf(s: Snapshot, valid: bool): Verdict {
    Verdict(s.attempt, s.arow.resultPath, s.arow.resultSha, s.row.spec, s.row.desired, valid)
  }

  predicate Stale(row: Attempt, a: AttemptId, task: Task, v: Verdict) {
    a != v.attempt || row.resultPath != v.resultPath || row.resultSha != v.resultSha || task.spec != v.spec
  }

  /** The commit transaction: every premise of the verdict is checked against the rows as they are now. */
  ghost function Commit(db: Db, s: Snapshot, v: Verdict, plan: Option<PlanDoc>): Db {
    if s.task !in db.tasks then db
    else
      var task := db.tasks[s.task];
      if s.attempt !in db.attempts || task.current != Some(s.attempt) then db
      else
        var row := db.attempts[s.attempt];
        if !row.state.Succeeded? || row.settled || Terminal(task.status) then db
        else if task.desired != v.desired then
          if task.desired.Cancel? then Settle(db, s.task, false) else db
        else SettleWithPlan(db, s.task, v.valid && !Stale(row, s.attempt, task, v), plan)
  }
}
