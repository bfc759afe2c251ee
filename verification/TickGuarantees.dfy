/** What one look of the manager does to each task that is not finished, case by case. */
module TickGuarantees {
  import opened Types
  import opened StoreOps
  import opened WorkflowOps
  import opened ManagerOps
  import opened System
  import opened Invariant
  import opened PairProofs
  import opened TaskProofs
  import opened StoreProofs
  import opened SettleProofs
  import opened ScheduleProofs
  import opened SteadyProofs
  import opened ScheduleGuarantees
  import opened RunProofs
  import opened RunGuarantees
  import opened CommitProofs
  import opened FateGuarantees

  // ------------------------------------------------------------- one task, by values

  predicate InTimeSuccess(row: Option<Attempt>, deadline: Time) {
    row.Some? && row.value.state.Succeeded? && row.value.finishedAt.Some? && row.value.finishedAt.value <= deadline
  }

  /** The deadline is reached, nobody has cancelled, and no success came in time. */
  predicate Overdue(task: Task, row: Option<Attempt>, now: Time) {
    now >= task.deadline && task.desired.Run? && !InTimeSuccess(row, task.deadline)
  }

  /** The deadline's intent, if it is due. */
  predicate Noted(task: Task, row: Option<Attempt>, now: Time, noted: Task) {
    && (Overdue(task, row, now) ==> noted == task.(desired := Action.Cancel, reason := Some(DeadlineExceeded)))
    && (!Overdue(task, row, now) ==> noted == task)
  }

  /** Nothing was heard from the worker for longer than its time to live. */
  predicate Unheard(cfg: Config, db: Db, w: WorkerId) {
    w in db.workers ==> db.workers[w].lastSeen + cfg.workerTtl < db.clock
  }

  /** The attempt nobody claimed is over before it began. */
  predicate Withdrawn(row: Attempt, kind: Kind, now: Time, row': Attempt) {
    row' == row.(state := AttemptState.Cancelled, sequence := row.sequence + 1, finishedAt := Some(now), heartbeat := now,
                 tokens := Some(0), kind := Some(kind), reserved := false, settled := true)
  }

  predicate RunnerGone(row: Attempt, row': Attempt) {
    row' == row.(state := Unknown, sequence := row.sequence + 1, tokens := None, kind := Some(Uncertain))
  }

  /** The current attempt was Queued: it ends when the task is cancelled or its worker is lost, and waits otherwise. */
  predicate QueuedReviewed(noted: Task, row: Attempt, lost: bool, now: Time, after: Task, row': Attempt) {
    && (noted.desired.Cancel? ==>
          && Withdrawn(row, Stopped, now, row')
          && Ended(noted, after, if noted.reason == Some(DeadlineExceeded) then Status.Failed else Status.Cancelled, noted.reason, now))
    && (noted.desired.Run? && lost ==> Withdrawn(row, NotStarted, now, row') && Requeued(noted, after, now, WorkerLost))
    && (noted.desired.Run? && !lost ==> row' == row && after == noted)
    && after.tokensUsed == noted.tokensUsed + row.knownTokens && after.usageUnknown == noted.usageUnknown
  }

  /** The current attempt was launched: only a runner that is gone changes its row. */
  predicate LaunchedReviewed(noted: Task, row: Attempt, alive: bool, after: Task, row': Attempt) {
    && (alive ==> row' == row)
    && (!alive ==> RunnerGone(row, row'))
    && after == (if alive && row.state.Running? && noted.status.Scheduled? then noted.(status := Status.Running) else noted)
  }

  /** One look at an open task and its current attempt. */
  predicate Reviewed(task: Task, noted: Task, row: Attempt, ran: nat, lost: bool, alive: bool, now: Time, after: Task, row': Attempt) {
    && Noted(task, Some(row), now, noted)
    && match row.state
       case Queued => QueuedReviewed(noted, row, lost, now, after, row')
       case Launching => LaunchedReviewed(noted, row, alive, after, row')
       case Running => LaunchedReviewed(noted, row, alive, after, row')
       case Unknown => row' == row && after == noted
       case Succeeded => row' == row && after == noted
       case _ => Fated(noted, row, ran, false, now, after) && Released(noted, row, false, row')
  }

  /** One look at a task that holds nothing. */
  predicate PendingReviewed(task: Task, noted: Task, now: Time, after: Task) {
    && Noted(task, None, now, noted)
    && (noted.desired.Cancel? ==>
          Ended(noted, after, if noted.reason == Some(DeadlineExceeded) then Status.Failed else Status.Cancelled, noted.reason, now))
    && (noted.desired.Run? ==> after == noted)
  }

  // ---------------------------------------------------------------- one iteration

  lemma DeadlineNoted(db: Db, t: TaskId)
    requires t in db.tasks && (db.tasks[t].current.Some? ==> db.tasks[t].current.value in db.attempts)
    ensures var db1 := EnforceDeadline(db, t);
            var current := db.tasks[t].current;
            && db1 == db.(tasks := db.tasks[t := db1.tasks[t]], events := db1.events)
            && Noted(db.tasks[t], if current.Some? then Some(db.attempts[current.value]) else None, db.clock, db1.tasks[t])
  {
    assert db.tasks[t := db.tasks[t]] == db.tasks;
  }

  lemma PendingFate(task: Task, noted: Task, now: Time)
    requires Noted(task, None, now, noted)
    ensures PendingReviewed(task, noted, now, if noted.desired.Cancel? then FinishCancelled(noted, now) else noted)
  {
  }

  lemma PendingLook(cfg: Config, db: Db, env: Env, t: TaskId) returns (noted: Task)
    requires Inv(cfg, db) && t in db.tasks && db.tasks[t].status.Pending?
    ensures var (db1, snap) := Reconcile(db, cfg, env, t);
            && snap.None? && db1.tasks.Keys == db.tasks.Keys && db1.attempts == db.attempts && db1.clock == db.clock && db1.workers == db.workers
            && PendingReviewed(db.tasks[t], noted, db.clock, db1.tasks[t])
  {
    hide Inv, EnforceDeadline, Probe, FinishCancelled, Noted, PendingReviewed;
    SoundTask(cfg, db, t);
    DeadlineNoted(db, t);
    EnforceDeadlineFrame(db, t);
    noted := EnforceDeadline(db, t).tasks[t];
    PendingFate(db.tasks[t], noted, db.clock);
  }

  /** What probing alone changes. */
  predicate Probed(noted: Task, row: Attempt, lost: bool, alive: bool, now: Time, task: Task, row1: Attempt) {
    && (task == noted || (row1.state.Running? && noted.status.Scheduled? && task == noted.(status := Status.Running)))
    && (row1.state.Running? ==> !task.status.Scheduled?)
    && match row.state
       case Queued =>
         && (noted.desired.Cancel? ==> EndsUnclaimed(row, Stopped, now, row1))
         && (noted.desired.Run? && lost ==> EndsUnclaimed(row, NotStarted, now, row1))
         && (noted.desired.Run? && !lost ==> row1 == row)
       case Launching => if alive then row1 == row else RunnerGone(row, row1)
       case Running => if alive then row1 == row else RunnerGone(row, row1)
       case _ => row1 == row
  }

  /** The row of a withdrawn attempt before it is settled. */
  predicate EndsUnclaimed(row: Attempt, kind: Kind, now: Time, row1: Attempt) {
    row1 == row.(state := AttemptState.Cancelled, sequence := row.sequence + 1, finishedAt := Some(now), heartbeat := now,
                 tokens := Some(0), kind := Some(kind))
  }

  lemma ProbeLook(cfg: Config, db: Db, env: Env, t: TaskId)
    requires Settleable(db, t)
    ensures var a := db.tasks[t].current.value;
            var row, db1 := db.attempts[a], Probe(db, cfg, env, t);
            && t in db1.tasks && a in db1.attempts && Elsewhere(db, db1, t, a)
            && Probed(db.tasks[t], row, Unheard(cfg, db, row.worker), a in env.alive, db.clock, db1.tasks[t], db1.attempts[a])
  {
  }

  lemma SameRan(x: map<AttemptId, Attempt>, y: map<AttemptId, Attempt>, t: TaskId)
    requires forall a :: (a in x && x[a].task == t) || (a in y && y[a].task == t) ==> a in x && a in y && y[a] == x[a]
    ensures Ran(y, t) == Ran(x, t)
  {
  }

  /** An iteration ends with the probe, hands a success out, or settles. */
  lemma LookShape(db: Db, cfg: Config, env: Env, t: TaskId)
    requires t in db.tasks && !db.tasks[t].status.Pending? && Settleable(db, t)
    ensures var db1 := EnforceDeadline(db, t);
            && Settleable(db1, t) && db1.tasks[t].current == db.tasks[t].current && db1.attempts == db.attempts
            && var db2 := Probe(db1, cfg, env, t);
               && Settleable(db2, t) && db2.tasks[t].current == db.tasks[t].current
               && var a := db.tasks[t].current.value;
                  var row := db2.attempts[a];
                  Reconcile(db, cfg, env, t) ==
                    if !Done(row.state) || row.settled then (db2, None)
                    else if row.state.Succeeded? then (db2, Some(Snapshot(t, db1.tasks[t], a, row)))
                    else (Settle(db2, t, false), None)
  {
    hide EnforceDeadline, Probe, Settle;
    EnforceDeadlineFrame(db, t);
    ProbeFrame(EnforceDeadline(db, t), cfg, env, t);
    ProbeStays(EnforceDeadline(db, t), cfg, env, t);
  }

  /** Where the look at an open task stands before a settlement. */
  lemma Before(cfg: Config, db: Db, env: Env, t: TaskId, db1: Db, mid: Db)
    requires Inv(cfg, db) && Active(db, t) && Settleable(db, t) && db1 == EnforceDeadline(db, t)
    requires Settleable(db1, t) && mid == Probe(db1, cfg, env, t)
    ensures Inv(cfg, mid) && Active(mid, t) && Settleable(mid, t)
    ensures var a := db.tasks[t].current.value;
            && mid.tasks[t].current == Some(a) && Elsewhere(db, mid, t, a)
            && db.attempts[a].task == t && !db.attempts[a].settled && !mid.attempts[a].settled
            && Noted(db.tasks[t], Some(db.attempts[a]), db.clock, db1.tasks[t]) && Open(db1.tasks[t].status)
            && Probed(db1.tasks[t], db.attempts[a], Unheard(cfg, db, db.attempts[a].worker), a in env.alive, db.clock, mid.tasks[t], mid.attempts[a])
  {
    hide Inv, Advances, EnforceDeadline, Probe, Noted, Probed, Unheard;
    ActivePair(cfg, db, t);
    DeadlineNoted(db, t);
    EnforceDeadlineKeeps(cfg, db, t);
    EnforceDeadlineFrame(db, t);
    ProbeLook(cfg, db1, env, t);
    ProbeKeeps(cfg, db1, env, t);
    ProbeFrame(db1, cfg, env, t);
    ActivePair(cfg, mid, t);
    SameUnheard(cfg, db, db1, db.attempts[db.tasks[t].current.value].worker);
  }

  lemma SameUnheard(cfg: Config, x: Db, y: Db, w: WorkerId)
    requires y.workers == x.workers && y.clock == x.clock
    ensures Unheard(cfg, y, w) == Unheard(cfg, x, w)
  {
  }

  lemma WaitingReviewed(task: Task, noted: Task, row: Attempt, ran: nat, lost: bool, alive: bool, now: Time, after: Task, row1: Attempt)
    requires Noted(task, Some(row), now, noted) && Open(noted.status) && Probed(noted, row, lost, alive, now, after, row1)
    requires (!Done(row1.state) || row1.state.Succeeded?) && (row.state.Queued? ==> row.knownTokens == 0)
    ensures Reviewed(task, noted, row, ran, lost, alive, now, after, row1)
    ensures row1.state.Succeeded? <==> row.state.Succeeded?
    ensures row1.state.Succeeded? ==> row1 == row
  {
    hide Noted;
  }

  lemma EndedReviewed(task: Task, noted: Task, row: Attempt, ran: nat, lost: bool, alive: bool, now: Time, mid: Task, row1: Attempt,
                      after: Task, row2: Attempt)
    requires Noted(task, Some(row), now, noted) && Open(noted.status) && Probed(noted, row, lost, alive, now, mid, row1)
    requires Done(row1.state) && !row1.state.Succeeded?
    requires Fated(mid, row1, ran, false, now, after) && Released(mid, row1, false, row2)
    ensures Reviewed(task, noted, row, ran, lost, alive, now, after, row2)
  {
    hide Noted, RetryAllowed, Backoff;
  }

  lemma OpenLook(cfg: Config, db: Db, env: Env, t: TaskId) returns (noted: Task)
    requires Inv(cfg, db) && Active(db, t) && Settleable(db, t)
    ensures var (db1, snap) := Reconcile(db, cfg, env, t);
            var a := db.tasks[t].current.value;
            var row := db.attempts[a];
            && t in db1.tasks && a in db1.attempts && Elsewhere(db, db1, t, a)
            && Reviewed(db.tasks[t], noted, row, |Ran(db.attempts, t)|, Unheard(cfg, db, row.worker), a in env.alive, db.clock,
                        db1.tasks[t], db1.attempts[a])
            && snap == (if row.state.Succeeded? then Some(Snapshot(t, noted, a, row)) else None)
  {
    hide Inv, EnforceDeadline, Probe, Settle, Fated, Released, Ran, Unheard, Noted, Probed, Reviewed, Reconcile;
    ActivePair(cfg, db, t);
    LookShape(db, cfg, env, t);
    var db1 := EnforceDeadline(db, t);
    var mid := Probe(db1, cfg, env, t);
    noted := db1.tasks[t];
    Before(cfg, db, env, t, db1, mid);
    var a := db.tasks[t].current.value;
    var row, row1, ran := db.attempts[a], mid.attempts[a], |Ran(db.attempts, t)|;
    var lost, alive := Unheard(cfg, db, row.worker), a in env.alive;
    if !Done(row1.state) || row1.state.Succeeded? {
      WaitingReviewed(db.tasks[t], noted, row, ran, lost, alive, db.clock, mid.tasks[t], row1);
    } else {
      SettleFates(cfg, mid, t, false);
      var settled := Settle(mid, t, false);
      RanAlike(db, mid, t, a, noted, lost, alive);
      FateAlike(mid.tasks[t], row1, |Ran(mid.attempts, t)|, ran, db.clock, settled.tasks[t]);
      EndedReviewed(db.tasks[t], noted, row, ran, lost, alive, db.clock, mid.tasks[t], row1, settled.tasks[t], settled.attempts[a]);
      NotSuccess(noted, row, lost, alive, db.clock, mid.tasks[t], row1);
    }
  }

  lemma NotSuccess(noted: Task, row: Attempt, lost: bool, alive: bool, now: Time, after: Task, row1: Attempt)
    requires Probed(noted, row, lost, alive, now, after, row1) && !row1.state.Succeeded?
    ensures !row.state.Succeeded?
  {
  }

  /** Probing changes the count of executions only by a confirmed non-start. */
  lemma RanAlike(db: Db, mid: Db, t: TaskId, a: AttemptId, noted: Task, lost: bool, alive: bool)
    requires t in mid.tasks && a in db.attempts && a in mid.attempts && Elsewhere(db, mid, t, a) && db.attempts[a].task == t
    requires Probed(noted, db.attempts[a], lost, alive, db.clock, mid.tasks[t], mid.attempts[a])
    ensures mid.attempts[a].kind == Some(NotStarted) || db.attempts[a].kind == Some(NotStarted) || Ran(mid.attempts, t) == Ran(db.attempts, t)
    ensures Done(db.attempts[a].state) ==> mid.attempts[a] == db.attempts[a] && Ran(mid.attempts, t) == Ran(db.attempts, t)
    ensures !Done(db.attempts[a].state) && Done(mid.attempts[a].state) ==>
      mid.tasks[t].desired.Cancel? || mid.attempts[a].kind == Some(NotStarted)
  {
  }

  /** A fate by intent or non-start does not count executions. */
  lemma FateAlike(task: Task, row: Attempt, n: nat, ran: nat, now: Time, after: Task)
    requires Fated(task, row, n, false, now, after)
    requires n == ran || task.desired.Cancel? || row.kind == Some(NotStarted)
    ensures Fated(task, row, ran, false, now, after)
  {
  }

  // -------------------------------------------------------------------- all of them

  /** The rows of `t`, the workers and the clock are the same. */
  ghost predicate Agree(x: Db, y: Db, t: TaskId) {
    && (t in x.tasks <==> t in y.tasks) && (t in x.tasks ==> y.tasks[t] == x.tasks[t])
    && y.clock == x.clock && y.workers == x.workers
    && (forall a :: a in x.attempts && x.attempts[a].task == t ==> a in y.attempts && y.attempts[a] == x.attempts[a])
    && (forall a :: a in y.attempts && y.attempts[a].task == t ==> a in x.attempts && y.attempts[a] == x.attempts[a])
  }

  lemma AgreeCompose(x: Db, y: Db, z: Db, t: TaskId)
    requires Agree(x, y, t) && Agree(y, z, t)
    ensures Agree(x, z, t)
  {
  }

  /** The look at `t` that begins in `x` ends with the rows of `y`. */
  ghost predicate Looked(cfg: Config, x: Db, env: Env, t: TaskId, y: Db) {
    && t in x.tasks && t in y.tasks
    && (x.tasks[t].status.Pending? ==> exists noted :: PendingReviewed(x.tasks[t], noted, x.clock, y.tasks[t]))
    && (Open(x.tasks[t].status) ==>
          && Settleable(x, t) && x.tasks[t].current.value in y.attempts
          && var a := x.tasks[t].current.value;
             var row := x.attempts[a];
             && row.task == t && y.attempts[a].task == t
             && exists noted :: Reviewed(x.tasks[t], noted, row, |Ran(x.attempts, t)|, Unheard(cfg, x, row.worker), a in env.alive, x.clock,
                                         y.tasks[t], y.attempts[a]))
  }

  lemma LookedSame(cfg: Config, x: Db, x1: Db, env: Env, t: TaskId, y: Db, y1: Db)
    requires Looked(cfg, x1, env, t, y) && Agree(x, x1, t) && Agree(y, y1, t)
    ensures Looked(cfg, x, env, t, y1)
  {
    hide Reviewed, PendingReviewed, Ran, Unheard;
    SameRan(x.attempts, x1.attempts, t);
    if Open(x.tasks[t].status) {
      var a := x.tasks[t].current.value;
      SameUnheard(cfg, x, x1, x1.attempts[a].worker);
      var noted :| Reviewed(x1.tasks[t], noted, x1.attempts[a], |Ran(x1.attempts, t)|, Unheard(cfg, x1, x1.attempts[a].worker), a in env.alive,
                            x1.clock, y.tasks[t], y.attempts[a]);
      assert Reviewed(x.tasks[t], noted, x.attempts[a], |Ran(x.attempts, t)|, Unheard(cfg, x, x.attempts[a].worker), a in env.alive,
                      x.clock, y1.tasks[t], y1.attempts[a]);
    }
  }

  lemma OneLooked(cfg: Config, db: Db, env: Env, t: TaskId)
    requires Inv(cfg, db) && t in db.tasks && !Terminal(db.tasks[t].status)
    ensures Looked(cfg, db, env, t, Reconcile(db, cfg, env, t).0)
  {
    hide Inv, Reconcile, Reviewed, PendingReviewed, Ran, Advances, Unheard;
    ReconcileKeeps(cfg, db, env, t);
    if db.tasks[t].status.Pending? {
      var noted := PendingLook(cfg, db, env, t);
    } else {
      ActivePair(cfg, db, t);
      var noted := OpenLook(cfg, db, env, t);
      KeptTask(db, Reconcile(db, cfg, env, t).0, db.tasks[t].current.value);
    }
  }

  lemma KeptTask(x: Db, y: Db, a: AttemptId)
    requires Advances(x, y) && a in x.attempts && a in y.attempts
    ensures y.attempts[a].task == x.attempts[a].task
  {
  }

  /** The look at another task leaves the rows of `t` alone. */
  lemma ReconcileApart(cfg: Config, db: Db, env: Env, u: TaskId, t: TaskId)
    requires Inv(cfg, db) && u in db.tasks && !Terminal(db.tasks[u].status) && u != t
    ensures Agree(db, Reconcile(db, cfg, env, u).0, t)
  {
    hide Inv, Reconcile, Reviewed, PendingReviewed, Ran, Advances, Unheard;
    ReconcileKeeps(cfg, db, env, u);
    ReconcileOthers(cfg, db, env, u);
    if db.tasks[u].status.Pending? {
      var noted := PendingLook(cfg, db, env, u);
    } else {
      ActivePair(cfg, db, u);
      var noted := OpenLook(cfg, db, env, u);
      KeptTask(db, Reconcile(db, cfg, env, u).0, db.tasks[u].current.value);
    }
  }

  lemma {:induction false} ReconcileAllApart(cfg: Config, db: Db, env: Env, ids: seq<TaskId>, t: TaskId)
    requires Inv(cfg, db) && Ascends(ids) && t !in ids
    requires forall u :: u in ids ==> u in db.tasks && !Terminal(db.tasks[u].status)
    ensures Agree(db, ReconcileAll(db, cfg, env, ids).0, t)
  {
    hide Inv, Reconcile, Agree, Advances;
    if ids == [] {
      AgreeSelf(db, t);
    } else {
      var n := |ids| - 1;
      var db1 := ReconcileAll(db, cfg, env, ids[..n]).0;
      Unreached(cfg, db, env, ids, ids[..n], ids[n], db1);
      ReconcileAllApart(cfg, db, env, ids[..n], t);
      ReconcileApart(cfg, db1, env, ids[n], t);
      AgreeCompose(db, db1, ReconcileAll(db, cfg, env, ids).0, t);
    }
  }

  lemma AgreeSelf(db: Db, t: TaskId)
    ensures Agree(db, db, t)
  {
  }

  lemma LastApart(ids: seq<TaskId>)
    requires Ascends(ids) && ids != []
    ensures var n := |ids| - 1; ids[n] in ids && ids[n] !in ids[..n] && (forall u :: u in ids[..n] ==> u in ids) && Ascends(ids[..n])
  {
  }

  /** Before the last iteration the database is sound, and the last task is as it was. */
  lemma Unreached(cfg: Config, db: Db, env: Env, ids: seq<TaskId>, less: seq<TaskId>, t: TaskId, mid: Db)
    requires Inv(cfg, db) && Ascends(ids) && ids == less + [t] && mid == ReconcileAll(db, cfg, env, less).0
    requires forall u :: u in ids ==> u in db.tasks && !Terminal(db.tasks[u].status)
    ensures (forall u :: u in less ==> u in ids) && t !in less
    ensures Inv(cfg, mid) && t in mid.tasks && mid.tasks[t] == db.tasks[t]
  {
    hide Inv, ReconcileAll, Reconcile, Advances, Terminal;
    LastApart(ids);
    assert less == ids[..|ids| - 1];
    ReconcileAllKeeps(cfg, db, env, less);
  }

  lemma {:induction false} ReconcileAllLooks(cfg: Config, db: Db, env: Env, ids: seq<TaskId>, t: TaskId)
    requires Inv(cfg, db) && Ascends(ids) && t in ids
    requires forall u :: u in ids ==> u in db.tasks && !Terminal(db.tasks[u].status)
    ensures Looked(cfg, db, env, t, ReconcileAll(db, cfg, env, ids).0)
  {
    hide Inv, Reconcile, Agree, Looked, Advances;
    var n := |ids| - 1;
    var db1, db2 := ReconcileAll(db, cfg, env, ids[..n]).0, ReconcileAll(db, cfg, env, ids).0;
    Unreached(cfg, db, env, ids, ids[..n], ids[n], db1);
    AgreeSelf(db, t);
    AgreeSelf(db2, t);
    if t == ids[n] {
      ReconcileAllApart(cfg, db, env, ids[..n], t);
      OneLooked(cfg, db1, env, t);
      LookedSame(cfg, db, db1, env, t, db2, db2);
    } else {
      assert t in ids[..n];
      ReconcileAllLooks(cfg, db, env, ids[..n], t);
      ReconcileApart(cfg, db1, env, ids[n], t);
      LookedSame(cfg, db, db, env, t, db1, db2);
    }
  }

  // ------------------------------------------------------------------ the whole tick

  lemma {:induction false} ScheduleApart(cfg: Config, db: Db, env: Env, ids: seq<TaskId>)
    requires Inv(cfg, db) && Ascends(ids) && forall t :: t in ids ==> Queueable(db, t)
    ensures var y := ScheduleAll(db, cfg, env, ids);
            && y.clock == db.clock && forall a :: a in db.attempts ==> a in y.attempts && y.attempts[a] == db.attempts[a]
  {
    hide Inv, Advances, ScheduleOne, Reserved, Feasible, NewAttempt;
    if ids != [] {
      var n := |ids| - 1;
      var db1 := ScheduleAll(db, cfg, env, ids[..n]);
      assert forall t :: t in ids[..n] ==> t in ids;
      ScheduleApart(cfg, db, env, ids[..n]);
      ScheduleAllKeeps(cfg, db, env, ids[..n]);
      FreshId(cfg, db1);
      ScheduleOneAttempts(cfg, db1, env, ids[n]);
    }
  }

  /** A task that may be placed now. */
  predicate Due(task: Task, now: Time) {
    task.status.Pending? && task.desired.Run? && task.nextRunAt <= now
  }

  lemma OpenIds(cfg: Config, db: Db)
    requires Inv(cfg, db)
    ensures Ascends(OpenTasks(db)) && forall t :: t in OpenTasks(db) <==> t in db.tasks && !Terminal(db.tasks[t].status)
  {
    hide Inv;
    KnownIds(cfg, db);
  }

  lemma DueIds(cfg: Config, db: Db)
    requires Inv(cfg, db)
    ensures Ascends(EligibleTasks(db)) && forall t :: t in EligibleTasks(db) <==> t in db.tasks && Due(db.tasks[t], db.clock)
  {
    hide Inv;
    KnownIds(cfg, db);
  }

  /** A tick looks at each unfinished task; afterwards only tasks that are due may still be placed. */
  lemma TickLooks(cfg: Config, db: Db, env: Env, t: TaskId) returns (x: Db)
    requires Inv(cfg, db) && t in db.tasks && !Terminal(db.tasks[t].status)
    ensures x == ReconcileAll(db, cfg, env, OpenTasks(db)).0
    ensures Inv(cfg, x) && Looked(cfg, db, env, t, x) && x.clock == db.clock
    ensures var y := Tick(db, cfg, env).0;
            && (t in x.tasks && !Due(x.tasks[t], db.clock) ==> t in y.tasks && y.tasks[t] == x.tasks[t])
            && (forall a :: a in x.attempts ==> a in y.attempts && y.attempts[a] == x.attempts[a])
  {
    hide Inv, Advances, ReconcileAll, ScheduleAll, Looked, Due, OpenTasks, EligibleTasks;
    OpenIds(cfg, db);
    ReconcileAllKeeps(cfg, db, env, OpenTasks(db));
    ReconcileAllLooks(cfg, db, env, OpenTasks(db), t);
    x := ReconcileAll(db, cfg, env, OpenTasks(db)).0;
    SameClock(cfg, db, env);
    DueIds(cfg, x);
    DueQueueable(x);
    ScheduleApart(cfg, x, env, EligibleTasks(x));
    ScheduleAllKeeps(cfg, x, env, EligibleTasks(x));
  }

  lemma SameClock(cfg: Config, db: Db, env: Env)
    ensures ReconcileAll(db, cfg, env, OpenTasks(db)).0.clock == db.clock
  {
    hide ReconcileAll, OpenTasks;
    ReconcileAllSteady(cfg, db, env, OpenTasks(db));
  }

  lemma DueQueueable(db: Db)
    ensures forall t :: t in EligibleTasks(db) ==> Queueable(db, t)
  {
  }

  // ----------------------------------------------------------------------- promises

  predicate Launched(s: AttemptState) {
    s.Launching? || s.Running?
  }

  lemma LaunchedLook(cfg: Config, x: Db, env: Env, t: TaskId, y: Db)
    requires Looked(cfg, x, env, t, y) && Open(x.tasks[t].status)
    ensures var a := x.tasks[t].current.value;
            Launched(x.attempts[a].state) ==>
              && LaunchedReviewed(y.tasks[t].(status := x.tasks[t].status), x.attempts[a], a in env.alive, y.tasks[t], y.attempts[a])
              && y.tasks[t].current == x.tasks[t].current
  {
    hide Noted, Fated, Released, Ran, RunnerGone, QueuedReviewed, Unheard;
    var a := x.tasks[t].current.value;
    var row := x.attempts[a];
    var noted :| Reviewed(x.tasks[t], noted, row, |Ran(x.attempts, t)|, Unheard(cfg, x, row.worker), a in env.alive, x.clock,
                          y.tasks[t], y.attempts[a]);
    NotedKeeps(x.tasks[t], Some(row), x.clock, noted);
  }

  lemma NotedKeeps(task: Task, row: Option<Attempt>, now: Time, noted: Task)
    requires Noted(task, row, now, noted)
    ensures noted == task.(desired := noted.desired, reason := noted.reason)
    ensures noted.desired.Cancel? <==> task.desired.Cancel? || Overdue(task, row, now)
    ensures task.desired.Cancel? ==> noted == task
    ensures Overdue(task, row, now) ==> noted.reason == Some(DeadlineExceeded)
  {
  }

  /** What a tick does to a launched attempt and its task. */
  predicate LivenessRule(x: Db, y: Db, env: Env, t: TaskId, a: AttemptId)
    requires t in x.tasks && a in x.attempts
  {
    var row := x.attempts[a];
    && t in y.tasks && a in y.attempts && y.tasks[t].current == Some(a)
    && (a in env.alive ==> y.attempts[a] == row && y.tasks[t].status == if row.state.Running? then Status.Running else x.tasks[t].status)
    && (a !in env.alive ==>
          && y.attempts[a] == row.(state := Unknown, sequence := row.sequence + 1, tokens := None, kind := Some(Uncertain))
          && y.tasks[t].status == x.tasks[t].status)
  }

  /** Whether the runner is alive decides the row of a launched attempt: with a live one it stays, and the task is
      Running once the runner has reported so; without one it becomes Unknown with unknown total, and the task keeps
      the attempt. */
  lemma LivenessDecides(cfg: Config, db: Db, env: Env, t: TaskId)
    requires Inv(cfg, db) && t in db.tasks && Open(db.tasks[t].status)
    ensures Settleable(db, t)
    ensures var a := db.tasks[t].current.value;
            Launched(db.attempts[a].state) ==> LivenessRule(db, Tick(db, cfg, env).0, env, t, a)
  {
    hide Inv, Tick, Looked, InUnknown, InLaunch;
    ActivePair(cfg, db, t);
    var x := TickLooks(cfg, db, env, t);
    hide ReconcileAll;
    LookedRows(cfg, db, env, t, x);
    LaunchedLook(cfg, db, env, t, x);
    LaunchedStatus(db, t);
  }

  lemma LaunchedStatus(db: Db, t: TaskId)
    requires t in db.tasks
    ensures Open(db.tasks[t].status) ==> !db.tasks[t].status.Pending?
  {
  }

  lemma LookedRows(cfg: Config, x: Db, env: Env, t: TaskId, y: Db)
    requires Looked(cfg, x, env, t, y)
    ensures t in x.tasks && t in y.tasks
    ensures Open(x.tasks[t].status) ==> Settleable(x, t) && x.tasks[t].current.value in y.attempts
  {
    hide Reviewed, PendingReviewed, Ran;
  }

  /** What a tick does to a Queued attempt and its task; `mid` is the database before placement. */
  predicate QueuedRule(cfg: Config, x: Db, mid: Db, y: Db, t: TaskId, a: AttemptId)
    requires t in x.tasks && a in x.attempts
  {
    var task, row := x.tasks[t], x.attempts[a];
    && t in mid.tasks && t in y.tasks && a in y.attempts
    && (task.desired.Cancel? && task.reason != Some(DeadlineExceeded) ==>
          Withdrawn(row, Stopped, x.clock, y.attempts[a]) && Ended(task, y.tasks[t], Status.Cancelled, task.reason, x.clock))
    && (task.desired.Cancel? && task.reason == Some(DeadlineExceeded) ==>
          Withdrawn(row, Stopped, x.clock, y.attempts[a]) && Ended(task, y.tasks[t], Status.Failed, task.reason, x.clock))
    && (task.desired.Run? && x.clock >= task.deadline ==>
          && Withdrawn(row, Stopped, x.clock, y.attempts[a])
          && Ended(task.(desired := Action.Cancel), y.tasks[t], Status.Failed, Some(DeadlineExceeded), x.clock))
    && (task.desired.Run? && x.clock < task.deadline && Unheard(cfg, x, row.worker) ==>
          Withdrawn(row, NotStarted, x.clock, y.attempts[a]) && Requeued(task, mid.tasks[t], x.clock, WorkerLost))
    && (task.desired.Run? && x.clock < task.deadline && !Unheard(cfg, x, row.worker) ==> y.attempts[a] == row && y.tasks[t] == task)
  }

  lemma QueuedByRule(cfg: Config, x: Db, env: Env, t: TaskId, mid: Db, y: Db)
    requires Looked(cfg, x, env, t, mid) && Open(x.tasks[t].status) && t in y.tasks && x.tasks[t].current.value in y.attempts
    requires y.attempts[x.tasks[t].current.value] == mid.attempts[x.tasks[t].current.value]
    requires !Due(mid.tasks[t], x.clock) ==> y.tasks[t] == mid.tasks[t]
    ensures var a := x.tasks[t].current.value; x.attempts[a].state.Queued? ==> QueuedRule(cfg, x, mid, y, t, a)
  {
    hide Fated, Released, Ran, RunnerGone, LaunchedReviewed, Unheard, Withdrawn;
    var a := x.tasks[t].current.value;
    var row := x.attempts[a];
    var noted :| Reviewed(x.tasks[t], noted, row, |Ran(x.attempts, t)|, Unheard(cfg, x, row.worker), a in env.alive, x.clock,
                          mid.tasks[t], mid.attempts[a]);
  }

  lemma TickTasks(cfg: Config, db: Db, env: Env, x: Db)
    requires Inv(cfg, db) && x == ReconcileAll(db, cfg, env, OpenTasks(db)).0 && Inv(cfg, x)
    ensures x.tasks.Keys <= Tick(db, cfg, env).0.tasks.Keys
  {
    hide Inv, ReconcileAll, ScheduleAll, Advances, EligibleTasks, OpenTasks;
    DueIds(cfg, x);
    DueQueueable(x);
    ScheduleExcuses(cfg, x, env, EligibleTasks(x));
  }

  /** A Queued attempt ends exactly when its task is cancelled, overdue, or its worker is lost; in the last case the
      task is Pending again before placement, without a count against its retries. */
  lemma QueuedDecides(cfg: Config, db: Db, env: Env, t: TaskId)
    requires Inv(cfg, db) && t in db.tasks && Open(db.tasks[t].status)
    ensures Settleable(db, t)
    ensures var a := db.tasks[t].current.value;
            db.attempts[a].state.Queued? ==>
              QueuedRule(cfg, db, ReconcileAll(db, cfg, env, OpenTasks(db)).0, Tick(db, cfg, env).0, t, a)
  {
    hide Inv, Tick, Looked, ReconcileAll, Due;
    ActivePair(cfg, db, t);
    var x := TickLooks(cfg, db, env, t);
    TickTasks(cfg, db, env, x);
    LookedRows(cfg, db, env, t, x);
    QueuedByRule(cfg, db, env, t, x, Tick(db, cfg, env).0);
  }

  // -------------------------------------------------------------------- failed attempts

  lemma BackoffPositive(task: Task, ran: nat)
    requires TaskSound(task) && ran > 0
    ensures Backoff(task.spec.retry, ran) > 0.0
  {
    Positive(task.spec.retry.backoffSeconds, Doubled(ran - 1) as real);
  }

  lemma Positive(x: real, y: real)
    requires x > 0.0 && y > 0.0
    ensures x * y > 0.0
  {
  }

  /** What a tick does to an attempt that failed or was cancelled: its task gets its fate at once. */
  predicate FailureRule(x: Db, y: Db, t: TaskId, a: AttemptId, noted: Task)
    requires t in x.tasks && a in x.attempts
  {
    var row := x.attempts[a];
    && t in y.tasks && a in y.attempts && Noted(x.tasks[t], Some(row), x.clock, noted)
    && Released(noted, row, false, y.attempts[a])
    && (noted.desired.Cancel? || row.kind != Some(NotStarted) ==>
          Fated(noted, row, |Ran(x.attempts, t)|, false, x.clock, y.tasks[t]))
  }

  predicate FailedState(s: AttemptState) {
    s.Failed? || s.Cancelled?
  }

  /** A fate leaves its task waiting for a later time, unless nothing had started. */
  lemma FateWaits(task: Task, row: Attempt, ran: nat, now: Time, after: Task)
    requires TaskSound(task) && Fated(task, row, ran, false, now, after) && (task.desired.Cancel? || row.kind != Some(NotStarted))
    ensures !Due(after, now)
  {
    if ran > 0 {
      BackoffPositive(task, ran);
    }
    hide Backoff;
  }

  lemma NotedSound(task: Task, row: Option<Attempt>, now: Time, noted: Task)
    requires TaskSound(task) && Open(task.status) && Noted(task, row, now, noted)
    ensures TaskSound(noted)
  {
  }

  lemma FailureByRule(cfg: Config, x: Db, env: Env, t: TaskId, mid: Db, y: Db) returns (noted: Task)
    requires Looked(cfg, x, env, t, mid) && Open(x.tasks[t].status) && TaskSound(x.tasks[t])
    requires t in y.tasks && x.tasks[t].current.value in y.attempts && FailedState(x.attempts[x.tasks[t].current.value].state)
    requires y.attempts[x.tasks[t].current.value] == mid.attempts[x.tasks[t].current.value]
    requires !Due(mid.tasks[t], x.clock) ==> y.tasks[t] == mid.tasks[t]
    ensures FailureRule(x, y, t, x.tasks[t].current.value, noted)
  {
    hide Fated, Released, Ran, Unheard, Noted, TaskSound, Due;
    var a := x.tasks[t].current.value;
    var row := x.attempts[a];
    noted :| Reviewed(x.tasks[t], noted, row, |Ran(x.attempts, t)|, Unheard(cfg, x, row.worker), a in env.alive, x.clock,
                      mid.tasks[t], mid.attempts[a]);
    NotedSound(x.tasks[t], Some(row), x.clock, noted);
    if noted.desired.Cancel? || row.kind != Some(NotStarted) {
      FateWaits(noted, row, |Ran(x.attempts, t)|, x.clock, mid.tasks[t]);
    }
  }

  /** A failed or cancelled attempt is settled by the next tick, and its task gets exactly its fate. */
  lemma FailureDecides(cfg: Config, db: Db, env: Env, t: TaskId) returns (noted: Task)
    requires Inv(cfg, db) && t in db.tasks && Open(db.tasks[t].status) && Settleable(db, t)
    requires FailedState(db.attempts[db.tasks[t].current.value].state)
    ensures FailureRule(db, Tick(db, cfg, env).0, t, db.tasks[t].current.value, noted)
  {
    hide Inv, Tick, Looked, ReconcileAll, Due, FailureRule, TaskSound;
    ActivePair(cfg, db, t);
    var x := TickLooks(cfg, db, env, t);
    TickTasks(cfg, db, env, x);
    LookedRows(cfg, db, env, t, x);
    noted := FailureByRule(cfg, db, env, t, x, Tick(db, cfg, env).0);
  }

  // ------------------------------------------------------------------------- deadlines

  predicate PendingRule(x: Db, y: Db, mid: Db, t: TaskId)
    requires t in x.tasks
  {
    var task := x.tasks[t];
    && t in y.tasks && t in mid.tasks
    && (task.desired.Cancel? && task.reason != Some(DeadlineExceeded) ==> Ended(task, y.tasks[t], Status.Cancelled, task.reason, x.clock))
    && (task.desired.Cancel? && task.reason == Some(DeadlineExceeded) ==> Ended(task, y.tasks[t], Status.Failed, task.reason, x.clock))
    && (task.desired.Run? && x.clock >= task.deadline ==>
          Ended(task.(desired := Action.Cancel), y.tasks[t], Status.Failed, Some(DeadlineExceeded), x.clock))
    && (task.desired.Run? && x.clock < task.deadline ==> mid.tasks[t] == task && (task.nextRunAt > x.clock ==> y.tasks[t] == task))
  }

  /** A Pending task ends with the tick that finds it cancelled or past its deadline, and is left for placement otherwise. */
  lemma PendingDecides(cfg: Config, db: Db, env: Env, t: TaskId)
    requires Inv(cfg, db) && t in db.tasks && db.tasks[t].status.Pending?
    ensures PendingRule(db, Tick(db, cfg, env).0, ReconcileAll(db, cfg, env, OpenTasks(db)).0, t)
  {
    hide Inv, Tick, ReconcileAll;
    var x := TickLooks(cfg, db, env, t);
    TickTasks(cfg, db, env, x);
    var noted :| PendingReviewed(db.tasks[t], noted, db.clock, x.tasks[t]);
  }

  /** An open task past its deadline, without a success in time, has cancel intent for it after the tick. */
  lemma DeadlineDecides(cfg: Config, db: Db, env: Env, t: TaskId)
    requires Inv(cfg, db) && t in db.tasks && Open(db.tasks[t].status) && Settleable(db, t)
    requires Overdue(db.tasks[t], Some(db.attempts[db.tasks[t].current.value]), db.clock)
    ensures var y := Tick(db, cfg, env).0;
            t in y.tasks && y.tasks[t].desired.Cancel? && y.tasks[t].reason == Some(DeadlineExceeded)
  {
    hide Inv, Tick, ReconcileAll, Looked;
    var x := TickLooks(cfg, db, env, t);
    TickTasks(cfg, db, env, x);
    LookedRows(cfg, db, env, t, x);
    OverdueLook(cfg, db, env, t, x);
  }

  lemma OverdueLook(cfg: Config, x: Db, env: Env, t: TaskId, y: Db)
    requires Looked(cfg, x, env, t, y) && Open(x.tasks[t].status)
    requires Overdue(x.tasks[t], Some(x.attempts[x.tasks[t].current.value]), x.clock)
    ensures y.tasks[t].desired.Cancel? && y.tasks[t].reason == Some(DeadlineExceeded)
  {
    hide Ran, RunnerGone, Unheard, Withdrawn, RetryAllowed, Backoff;
    var a := x.tasks[t].current.value;
    var row := x.attempts[a];
    var noted :| Reviewed(x.tasks[t], noted, row, |Ran(x.attempts, t)|, Unheard(cfg, x, row.worker), a in env.alive, x.clock,
                          y.tasks[t], y.attempts[a]);
  }

  // ------------------------------------------------------------------------- successes

  /** A snapshot shows a successful current attempt with its task, the deadline's intent included. */
  predicate Shows(x: Db, s: Snapshot) {
    && s.task in x.tasks && Open(x.tasks[s.task].status) && x.tasks[s.task].current == Some(s.attempt)
    && s.attempt in x.attempts && x.attempts[s.attempt].state.Succeeded? && s.arow == x.attempts[s.attempt]
    && Noted(x.tasks[s.task], Some(s.arow), x.clock, s.row)
  }

  lemma ShowsSame(x: Db, x1: Db, s: Snapshot)
    requires Shows(x1, s) && Agree(x, x1, s.task) && x1.attempts[s.attempt].task == s.task
    ensures Shows(x, s)
  {
    hide Noted;
  }

  /** The look hands out a snapshot exactly for a successful attempt. */
  lemma OneHanded(cfg: Config, db: Db, env: Env, t: TaskId)
    requires Inv(cfg, db) && t in db.tasks && !Terminal(db.tasks[t].status)
    ensures var snap := Reconcile(db, cfg, env, t).1;
            && (snap.Some? ==> snap.value.task == t && Shows(db, snap.value) && db.attempts[snap.value.attempt].task == t)
            && (Open(db.tasks[t].status) ==> Settleable(db, t))
            && (Open(db.tasks[t].status) && db.attempts[db.tasks[t].current.value].state.Succeeded? ==> snap.Some?)
  {
    hide Inv, Reconcile, Fated, Released, Ran, Unheard, Noted, Advances;
    if db.tasks[t].status.Pending? {
      var noted := PendingLook(cfg, db, env, t);
    } else {
      ActivePair(cfg, db, t);
      var noted := OpenLook(cfg, db, env, t);
    }
  }

  /** Exactly the successes among `ids` are handed out. */
  ghost predicate HandedOut(db: Db, ids: seq<TaskId>, snaps: seq<Snapshot>) {
    && (forall s :: s in snaps ==> s.task in ids && Shows(db, s))
    && (forall t :: t in ids && t in db.tasks && Open(db.tasks[t].status) ==> HandedFor(db, t, snaps))
  }

  ghost predicate HandedFor(db: Db, t: TaskId, snaps: seq<Snapshot>)
    requires t in db.tasks
  {
    Settleable(db, t) && (db.attempts[db.tasks[t].current.value].state.Succeeded? ==> exists s :: s in snaps && s.task == t)
  }

  lemma HandedMore(db: Db, t: TaskId, snaps: seq<Snapshot>, more: seq<Snapshot>)
    requires t in db.tasks && HandedFor(db, t, snaps)
    ensures HandedFor(db, t, snaps + more)
  {
  }

  /** One more task, and at most one more snapshot, of that task. */
  lemma HandedOneMore(db: Db, ids: seq<TaskId>, t: TaskId, snaps: seq<Snapshot>, snap: Option<Snapshot>)
    requires HandedOut(db, ids, snaps) && t in db.tasks && (snap.Some? ==> snap.value.task == t && Shows(db, snap.value))
    requires Open(db.tasks[t].status) ==> HandedFor(db, t, if snap.Some? then snaps + [snap.value] else snaps)
    ensures HandedOut(db, ids + [t], if snap.Some? then snaps + [snap.value] else snaps)
  {
    hide Shows, HandedFor;
    var all := if snap.Some? then snaps + [snap.value] else snaps;
    forall u | u in ids + [t] && u in db.tasks && Open(db.tasks[u].status) ensures HandedFor(db, u, all) {
      if u != t {
        assert u in ids;
        HandedMore(db, u, snaps, if snap.Some? then [snap.value] else []);
        assert all == snaps + (if snap.Some? then [snap.value] else []);
      }
    }
  }

  lemma {:induction false} ReconcileAllHands(cfg: Config, db: Db, env: Env, ids: seq<TaskId>)
    requires Inv(cfg, db) && Ascends(ids)
    requires forall u :: u in ids ==> u in db.tasks && !Terminal(db.tasks[u].status)
    ensures HandedOut(db, ids, ReconcileAll(db, cfg, env, ids).1)
  {
    hide Inv, Reconcile, Agree, Shows, HandedFor;
    if ids != [] {
      var n := |ids| - 1;
      var t := ids[n];
      var (db1, snaps) := ReconcileAll(db, cfg, env, ids[..n]);
      Unreached(cfg, db, env, ids, ids[..n], t, db1);
      ReconcileAllHands(cfg, db, env, ids[..n]);
      ReconcileAllApart(cfg, db, env, ids[..n], t);
      LastHanded(cfg, db, db1, env, t, snaps);
      hide HandedOut;
      HandedOneMore(db, ids[..n], t, snaps, Reconcile(db1, cfg, env, t).1);
      assert ids == ids[..n] + [t];
    }
  }

  lemma LastHanded(cfg: Config, db: Db, db1: Db, env: Env, t: TaskId, snaps: seq<Snapshot>)
    requires Inv(cfg, db1) && Agree(db, db1, t) && t in db1.tasks && !Terminal(db1.tasks[t].status)
    ensures var snap := Reconcile(db1, cfg, env, t).1;
            && (snap.Some? ==> snap.value.task == t && Shows(db, snap.value))
            && t in db.tasks
            && (Open(db.tasks[t].status) ==> HandedFor(db, t, if snap.Some? then snaps + [snap.value] else snaps))
  {
    hide Inv, Reconcile, Shows, Noted;
    OneHanded(cfg, db1, env, t);
    var snap := Reconcile(db1, cfg, env, t).1;
    if snap.Some? {
      ShownTask(db1, snap.value);
      ShowsSame(db, db1, snap.value);
      assert snap.value in snaps + [snap.value];
    }
    if Open(db1.tasks[t].status) {
      ActivePair(cfg, db1, t);
    }
  }

  lemma ShownTask(x: Db, s: Snapshot)
    requires Shows(x, s)
    ensures s.task in x.tasks && s.attempt in x.attempts
  {
  }

  /** A tick hands out every success that awaits its verdict, with its rows as they are, and nothing else. */
  lemma SuccessAwaitsVerdict(cfg: Config, db: Db, env: Env)
    requires Inv(cfg, db)
    ensures var snaps := Tick(db, cfg, env).1;
            && (forall s :: s in snaps ==> Shows(db, s))
            && (forall t :: t in db.tasks && Open(db.tasks[t].status) ==> HandedFor(db, t, snaps))
  {
    hide Inv, ReconcileAll, Shows, HandedFor, OpenTasks, ScheduleAll, EligibleTasks;
    OpenIds(cfg, db);
    ReconcileAllHands(cfg, db, env, OpenTasks(db));
  }

  lemma SuccessStays(cfg: Config, db: Db, env: Env, t: TaskId)
    requires Inv(cfg, db) && t in db.tasks && Open(db.tasks[t].status) && Settleable(db, t)
    requires var row := db.attempts[db.tasks[t].current.value]; row.state.Succeeded? && InTimeSuccess(Some(row), db.tasks[t].deadline)
    ensures var y := Tick(db, cfg, env).0;
            t in y.tasks && y.tasks[t] == db.tasks[t] && db.tasks[t].current.value in y.attempts
            && y.attempts[db.tasks[t].current.value] == db.attempts[db.tasks[t].current.value]
  {
    hide Inv, Tick, ReconcileAll, Looked;
    var x := TickLooks(cfg, db, env, t);
    TickTasks(cfg, db, env, x);
    LookedRows(cfg, db, env, t, x);
    SuccessLook(cfg, db, env, t, x);
  }

  lemma SuccessLook(cfg: Config, x: Db, env: Env, t: TaskId, y: Db)
    requires Looked(cfg, x, env, t, y) && Open(x.tasks[t].status)
    requires var row := x.attempts[x.tasks[t].current.value]; row.state.Succeeded? && InTimeSuccess(Some(row), x.tasks[t].deadline)
    ensures y.tasks[t] == x.tasks[t] && y.attempts[x.tasks[t].current.value] == x.attempts[x.tasks[t].current.value]
    ensures !Due(y.tasks[t], x.clock)
  {
    hide Ran, Unheard;
    var a := x.tasks[t].current.value;
    var row := x.attempts[a];
    var noted :| Reviewed(x.tasks[t], noted, row, |Ran(x.attempts, t)|, Unheard(cfg, x, row.worker), a in env.alive, x.clock,
                          y.tasks[t], y.attempts[a]);
  }

  /** A success in time comes through: the next tick hands it out, and an accepting verdict that is committed then makes
      its task Succeeded, unless it was cancelled before. */
  lemma SuccessComesThrough(cfg: Config, steps: seq<Step>, env: Env, t: TaskId, plan: Option<PlanDoc>) returns (s: Snapshot)
    requires var x := Reached(cfg, steps).db;
             && t in x.tasks && Open(x.tasks[t].status) && x.tasks[t].desired.Run? && Settleable(x, t) && (t in x.roots ==> plan.Some?)
             && var row := x.attempts[x.tasks[t].current.value]; row.state.Succeeded? && InTimeSuccess(Some(row), x.tasks[t].deadline)
    ensures s.task == t && s in Next(cfg, Reached(cfg, steps), DoTick(env)).flight
    ensures var y := Next(cfg, Next(cfg, Reached(cfg, steps), DoTick(env)), DoCommit(s, true, plan)).db;
            t in y.tasks && y.tasks[t].status.Succeeded?
  {
    hide Reached, Inv, Sound, Tick, Shows, Next;
    ReachedSound(cfg, steps);
    var m := Reached(cfg, steps);
    var m1 := Next(cfg, m, DoTick(env));
    TickStepped(cfg, m, env);
    TickRoots(cfg, m.db, env);
    ActivePair(cfg, m.db, t);
    SuccessAwaitsVerdict(cfg, m.db, env);
    assert HandedFor(m.db, t, Tick(m.db, cfg, env).1);
    s :| s in Tick(m.db, cfg, env).1 && s.task == t;
    ShowsCurrent(m.db, s);
    SuccessStays(cfg, m.db, env, t);
    ReachedAfter(cfg, steps, DoTick(env));
    assert Awaits(m1.db, s);
    AcceptedSucceeds(cfg, steps + [DoTick(env)], s, plan);
  }

  lemma TickStepped(cfg: Config, m: Machine, env: Env)
    ensures var m1 := Next(cfg, m, DoTick(env));
            m1.db == Tick(m.db, cfg, env).0 && m1.flight == m.flight + multiset(Tick(m.db, cfg, env).1)
  {
    hide Tick, InUnknown, InLaunch, Submit, CreateWorkflow, StoreOps.Cancel, Resolve, SettlePlanCommand;
    hide Deliver, RetainMark, RetainPhase, RetainPurge, RegisterWorker, HeartbeatWorker, Commit;
  }

  lemma TickRoots(cfg: Config, db: Db, env: Env)
    requires Inv(cfg, db)
    ensures Tick(db, cfg, env).0.roots.Keys == db.roots.Keys
  {
    hide Inv, Tick, KnownUsage, Successes, Rotation;
    TickSteady(cfg, db, env);
  }

  lemma ReachedAfter(cfg: Config, steps: seq<Step>, step: Step)
    ensures Reached(cfg, steps + [step]) == Next(cfg, Reached(cfg, steps), step)
  {
    hide Next;
    assert (steps + [step])[..|steps|] == steps;
  }

  lemma ShowsCurrent(x: Db, s: Snapshot)
    requires Shows(x, s)
    ensures s.task in x.tasks && x.tasks[s.task].current == Some(s.attempt) && s.attempt in x.attempts
  {
    hide Noted;
  }
}
