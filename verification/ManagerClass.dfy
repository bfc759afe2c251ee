/** The manager: one tick reconciles every open task and places work; a second transaction
    commits each validated result. */
module ManagerClass {
  import opened Types
  import opened StoreOps
  import opened WorkflowOps
  import opened ManagerOps
  import opened Invariant
  import opened TaskProofs
  import opened SettleProofs
  import opened ScheduleProofs
  import opened ScheduleGuarantees
  import opened StoreClass
  import opened WorkflowClass

  class Manager {
    const store: Store
    const workflows: WorkflowStore

    constructor (store: Store)
      ensures this.store == store && workflows.store == store
    {
      this.store := store;
      workflows := new WorkflowStore(store);
    }

    predicate Wired() {
      workflows.store == store
    }

    // ------------------------------------------------------------- settlement

    /** What becomes of a task whose attempt ended: finished, queued again, or failed. */
    static method Decide(t: TaskId, task: Task, row: Attempt, accepted: bool, executed: nat, now: Time)
      returns (task': Task, row': Attempt, log: seq<Event>)
      ensures (task', row') == SettledRows(task, row, accepted, executed, now)
      ensures log == SettleLog(t, task, row, accepted, task')
    {
      log := [];
      row' := row.(reserved := false, settled := true);
      task' := task.(tokensUsed := task.tokensUsed + row.knownTokens, usageUnknown := task.usageUnknown || row.tokens.None?);
      if task.desired.Cancel? {
        task' := FinishCancelled(task', now);
        log := log + [Event(t, TaskFinished)];
        return;
      }
      if row.kind == Some(NotStarted) {
        task' := Requeue(task', now, WorkerLost);
        log := log + [Event(t, TaskRequeued)];
        return;
      }
      var kind := row.kind;
      if row.state.Succeeded? {
        if accepted {
          task' := Finish(task', Status.Succeeded, Some(OutputValidated), now).(resultPath := row.resultPath, resultSha := row.resultSha);
          log := log + [Event(t, TaskFinished)];
          return;
        }
        kind := Some(Validation);
        log := log + [Event(t, ResultRejected)];
        row' := row'.(kind := kind);
      }
      if MayRetry(task', kind, executed, now) {
        task' := Requeue(task', now + RetryDelay(task.spec.retry, executed), AttemptError(kind));
        log := log + [Event(t, RetryScheduled)];
      } else {
        task' := Finish(task', Status.Failed, Some(AttemptError(kind)), now);
        log := log + [Event(t, TaskFinished)];
      }
    }

    /** Terminal execution evidence releases the reservation, accounts usage and decides the task. */
    method Settle(t: TaskId, accepted: bool)
      requires Wired() && Settleable(store.View(), t)
      modifies store
      ensures store.View() == ManagerOps.Settle(old(store.View()), t, accepted)
    {
      hide SettledRows, SettleLog, WorkflowOps.RecordUsage, Executions;
      var a := store.tasks[t].current.value;
      var row := store.attempts[a];
      workflows.RecordUsage(t, row.knownTokens);
      var task', row', log := Decide(t, store.tasks[t], row, accepted, Executions(store.attempts, t), store.clock);
      store.attempts := store.attempts[a := row'];
      store.tasks := store.tasks[t := task'];
      store.events := store.events + log;
    }

    /** The settlement of a verdict.  An accepted planner's plan joins the same commit; when its
        result cannot be read back the whole transaction rolls back. */
    method SettleVerdict(t: TaskId, accepted: bool, plan: Option<PlanDoc>)
      requires Wired() && Settleable(store.View(), t)
      modifies store
      ensures store.View() == SettleWithPlan(old(store.View()), t, accepted, plan)
    {
      hide SettledRows, SettleLog, WorkflowOps.RecordUsage, WorkflowOps.SettlePlan;
      var outcome := ManagerOps.Settle(store.View(), t, accepted).tasks[t];
      if outcome.status.Succeeded? && t in store.roots && plan.None? {
        return;
      }
      ghost var before := store.View();
      Settle(t, accepted);
      RootsStay(before, t, accepted);
      if store.tasks[t].status.Succeeded? && t in store.roots {
        var receipt := workflows.SettlePlan(t, plan.value, false);
      }
    }

    static lemma RootsStay(db: Db, t: TaskId, accepted: bool)
      requires Settleable(db, t)
      ensures ManagerOps.Settle(db, t, accepted).roots.Keys == db.roots.Keys && t in ManagerOps.Settle(db, t, accepted).tasks
    {
      hide SettledRows, SettleLog, Executions;
    }

    /** The commit transaction: the verdict's premises are checked against the rows as they are now. */
    method Commit(s: Snapshot, v: Verdict, plan: Option<PlanDoc>)
      requires Wired()
      modifies store
      ensures store.View() == ManagerOps.Commit(old(store.View()), s, v, plan)
    {
      hide ManagerOps.Settle, SettleWithPlan;
      if s.task !in store.tasks {
        return;
      }
      var task := store.tasks[s.task];
      if s.attempt !in store.attempts || task.current != Some(s.attempt) {
        return;
      }
      var row := store.attempts[s.attempt];
      if !row.state.Succeeded? || row.settled || Terminal(task.status) {
        return;
      }
      if task.desired != v.desired {
        if task.desired.Cancel? {
          Settle(s.task, false);
        }
        return;
      }
      var valid := v.valid;
      if s.attempt != v.attempt || row.resultPath != v.resultPath || row.resultSha != v.resultSha || task.spec != v.spec {
        valid := false;
      }
      SettleVerdict(s.task, valid, plan);
    }

    // --------------------------------------------------------- reconciliation

    method EnforceDeadline(t: TaskId)
      requires t in store.tasks
      modifies store
      ensures store.View() == ManagerOps.EnforceDeadline(old(store.View()), t)
    {
      var task := store.tasks[t];
      if store.clock >= task.deadline && task.desired.Run? && !SucceededInTime(store.View(), t) {
        store.tasks := store.tasks[t := task.(desired := Action.Cancel, reason := Some(DeadlineExceeded))];
        store.Note(t, TaskDeadline);
      }
    }

    /** Ends a Queued attempt that proves it has not started, and marks a lost runner's outcome Unknown. */
    method Probe(env: Env, t: TaskId)
      requires Settleable(store.View(), t)
      modifies store
      ensures store.View() == ManagerOps.Probe(old(store.View()), store.cfg, env, t)
    {
      var task := store.tasks[t];
      var a := task.current.value;
      var row := store.attempts[a];
      var lost := WorkerLostNow(store.View(), store.cfg, row.worker);
      hide WorkerLostNow;
      var probed := row;
      if row.state.Queued? {
        if task.desired.Cancel? {
          probed := CancelledBeforeLaunch(row, Stopped, store.clock);
        } else if lost {
          probed := CancelledBeforeLaunch(row, NotStarted, store.clock);
        }
      } else if (row.state.Launching? || row.state.Running?) && a !in env.alive {
        probed := row.(state := Unknown, sequence := row.sequence + 1, tokens := None, kind := Some(Uncertain));
      }
      assert probed == ProbedRow(row, task.desired.Cancel?, lost, a in env.alive, store.clock);
      hide ProbedRow, ProbeLog;
      store.attempts := store.attempts[a := probed];
      store.events := store.events + ProbeLog(t, row, probed);
      var followed := task;
      if probed.state.Running? && task.status.Scheduled? {
        followed := task.(status := Status.Running);
      }
      store.tasks := store.tasks[t := followed];
    }

    /** One iteration of the tick loop; a success is handed out for validation. */
    method Reconcile(env: Env, t: TaskId) returns (snapshot: Option<Snapshot>)
      requires Wired()
      modifies store
      ensures (store.View(), snapshot) == ManagerOps.Reconcile(old(store.View()), store.cfg, env, t)
    {
      hide ManagerOps.Settle, ProbedRow, SucceededInTime, WorkerLostNow;
      if t !in store.tasks {
        return None;
      }
      EnforceDeadline(t);
      var task := store.tasks[t];
      if task.status.Pending? {
        if task.desired.Cancel? {
          store.tasks := store.tasks[t := FinishCancelled(task, store.clock)];
          store.Note(t, TaskFinished);
        }
        return None;
      }
      if !Settleable(store.View(), t) {
        return None;
      }
      Probe(env, t);
      var row := store.attempts[task.current.value];
      if !Done(row.state) || row.settled {
        return None;
      }
      if row.state.Succeeded? {
        return Some(Snapshot(t, task, task.current.value, row));
      }
      Settle(t, false);
      return None;
    }

    // -------------------------------------------------------------- placement

    method Place(t: TaskId, w: WorkerId, feasible: seq<WorkerId>)
      requires t in store.tasks
      modifies store
      ensures store.View() == ManagerOps.Place(old(store.View()), t, w, feasible)
    {
      var a := store.nextId;
      store.nextId := store.nextId + 1;
      var number := |AttemptsOf(store.attempts, t)| + 1;
      store.attempts := store.attempts[a := NewAttempt(t, number, w, store.clock)];
      store.outbox := store.outbox[a := false];
      store.tasks := store.tasks[t := store.tasks[t].(status := Scheduled, current := Some(a), reason := None)];
      store.placements := store.placements + [Placement(w, feasible)];
      store.lastWorker := w;
      store.Note(t, TaskScheduled);
    }

    /** Tries to place one task; true when it now holds an attempt. */
    method ScheduleOne(env: Env, t: TaskId) returns (placed: bool)
      requires Wired() && store.nextId !in store.attempts
      modifies store
      ensures store.View() == ManagerOps.ScheduleOne(old(store.View()), store.cfg, env, t)
      ensures |Reserved(store.attempts)| == |Reserved(old(store.attempts))| + if placed then 1 else 0
    {
      hide Deliver, WorkflowOps.ClaimAttempt, FeasibleWorkers, Pick, ManagerOps.Place, Reserved;
      if t !in store.tasks {
        return false;
      }
      var feasible := FeasibleWorkers(store.View(), store.cfg, store.tasks[t].spec);
      if feasible == [] {
        return false;
      }
      var cursor := store.lastWorker;
      DeliverLocal(store.View(), t, env.sound);
      var dependency := workflows.DeliverDependencies(t, env.sound);
      if !dependency.Ready? {
        return false;
      }
      ClaimFrame(store.View(), t);
      var claimed := workflows.ClaimAttempt(t);
      if !claimed || t !in store.tasks {
        return false;
      }
      ReservesOne(store.View(), t, Pick(cursor, feasible), feasible);
      Place(t, Pick(cursor, feasible), feasible);
      return true;
    }

    static lemma ReservedMore(attempts: map<AttemptId, Attempt>, a: AttemptId, row: Attempt)
      requires a !in attempts && row.reserved
      ensures |Reserved(attempts[a := row])| == |Reserved(attempts)| + 1
    {
      assert Reserved(attempts[a := row]) == Reserved(attempts) + {a};
    }

    static lemma ReservesOne(db: Db, t: TaskId, w: WorkerId, feasible: seq<WorkerId>)
      requires t in db.tasks && db.nextId !in db.attempts
      ensures |Reserved(ManagerOps.Place(db, t, w, feasible).attempts)| == |Reserved(db.attempts)| + 1
    {
      hide AttemptsOf, ManagerOps.Place, Reserved;
      PlaceShape(db, db, t, w, feasible);
      ReservedMore(db.attempts, db.nextId, NewAttempt(t, |AttemptsOf(db.attempts, t)| + 1, w, db.clock));
    }

    static lemma PrefixKeeps(cfg: Config, db: Db, env: Env, k: nat)
      requires Inv(cfg, db) && k <= |EligibleTasks(db)|
      ensures Inv(cfg, ScheduleAll(db, cfg, env, EligibleTasks(db)[..k]))
    {
      hide Inv, Advances, ScheduleAll;
      forall t | t in EligibleTasks(db)[..k] ensures Queueable(db, t) {
        assert t in EligibleTasks(db);
      }
      ScheduleAllKeeps(cfg, db, env, EligibleTasks(db)[..k]);
    }

    /** Places pending work in row order until the capacity is used up. */
    method Schedule(env: Env)
      requires Wired() && Inv(store.cfg, store.View())
      modifies store
      ensures store.View() == ManagerOps.Schedule(old(store.View()), store.cfg, env) && Inv(store.cfg, store.View())
    {
      hide Inv, ManagerOps.ScheduleOne, Reserved, EligibleTasks;
      ghost var before := store.View();
      var pending := EligibleTasks(store.View());
      var used := |Reserved(store.attempts)|;
      var i := 0;
      while i < |pending| && used < store.cfg.maxActive
        invariant 0 <= i <= |pending| && used == |Reserved(store.attempts)|
        invariant store.View() == ScheduleAll(before, store.cfg, env, pending[..i]) && Inv(store.cfg, store.View())
      {
        assert pending[..i + 1][..i] == pending[..i];
        FreshId(store.cfg, store.View());
        var placed := ScheduleOne(env, pending[i]);
        if placed {
          used := used + 1;
        }
        PrefixKeeps(store.cfg, before, env, i + 1);
        i := i + 1;
      }
      assert pending[..|pending|] == pending;
      if i < |pending| {
        CapacityStops(before, store.cfg, env, pending, i);
      }
    }

    /** Nothing is placed once the capacity is used up. */
    static lemma {:induction false} CapacityStops(db: Db, cfg: Config, env: Env, ids: seq<TaskId>, i: nat)
      requires i <= |ids| && |Reserved(ScheduleAll(db, cfg, env, ids[..i]).attempts)| >= cfg.maxActive
      ensures ScheduleAll(db, cfg, env, ids) == ScheduleAll(db, cfg, env, ids[..i])
    {
      hide ManagerOps.ScheduleOne, Reserved;
      if i < |ids| {
        var n := |ids| - 1;
        assert ids[..n][..i] == ids[..i];
        CapacityStops(db, cfg, env, ids[..n], i);
      } else {
        assert ids[..i] == ids;
      }
    }

    /** The tick transaction: reconcile every open task, then schedule.  Returns the successes whose
        artifacts are to be validated outside any transaction. */
    method Tick(env: Env) returns (validations: seq<Snapshot>)
      requires Wired() && Inv(store.cfg, store.View())
      modifies store
      ensures (store.View(), validations) == ManagerOps.Tick(old(store.View()), store.cfg, env) && Inv(store.cfg, store.View())
    {
      hide Inv, Advances, ManagerOps.Reconcile, ManagerOps.Schedule;
      ghost var before := store.View();
      var tasks := OpenTasks(store.View());
      validations := [];
      var i := 0;
      while i < |tasks|
        invariant 0 <= i <= |tasks| && (store.View(), validations) == ReconcileAll(before, store.cfg, env, tasks[..i])
      {
        assert tasks[..i + 1][..i] == tasks[..i];
        var snapshot := Reconcile(env, tasks[i]);
        if snapshot.Some? {
          validations := validations + [snapshot.value];
        }
        i := i + 1;
      }
      assert tasks[..|tasks|] == tasks;
      ReconcileAllKeeps(store.cfg, before, env, tasks);
      Schedule(env);
    }
  }
}
