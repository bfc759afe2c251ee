/** Optimistic settlement: a snapshot taken in one transaction, validated outside any,
    and committed in another behaves as one atomic settlement at commit time. */
module CommitProofs {
  import opened Types
  import opened StoreOps
  import opened WorkflowOps
  import opened ManagerOps
  import opened Invariant
  import opened PairProofs
  import opened TaskProofs
  import opened StoreProofs
  import opened SettleProofs
  import opened ScheduleProofs
  import opened PlanProofs

  /** A snapshot describes rows that have only advanced since it was taken. */
  predicate SnapSound(db: Db, s: Snapshot) {
    && s.task < db.nextId && s.attempt < db.nextId && s.arow.state.Succeeded?
    && (s.row.desired.Run? ==> s.arow.finishedAt.Some? && s.arow.finishedAt.value <= s.row.deadline)
    && (s.task in db.tasks ==> TaskAdvances(s.row, db.tasks[s.task]))
    && (s.attempt in db.attempts ==> AttemptAdvances(s.arow, db.attempts[s.attempt]))
  }

  lemma SnapStays(x: Db, y: Db, s: Snapshot)
    requires SnapSound(x, s) && Advances(x, y)
    ensures SnapSound(y, s)
  {
  }

  lemma ReconcileSnaps(cfg: Config, db: Db, env: Env, t: TaskId, s: Snapshot)
    requires Inv(cfg, db) && t in db.tasks && !Terminal(db.tasks[t].status) && Reconcile(db, cfg, env, t).1 == Some(s)
    ensures SnapSound(Reconcile(db, cfg, env, t).0, s)
  {
    hide Inv, Advances, EnforceDeadline, Settle, ProbedRow, WorkerLostNow, AttemptSound, TaskSound, Holds;
    var db1 := EnforceDeadline(db, t);
    EnforceDeadlineKeeps(cfg, db, t);
    EnforceDeadlineFrame(db, t);
    EnforceDeadlineWorks(cfg, db, t) by { SoundTask(cfg, db, t); }
    ActivePair(cfg, db1, t);
    ProbeInTime(db1, cfg, env, t);
    var db2 := Probe(db1, cfg, env, t);
    ProbeKeeps(cfg, db1, env, t);
    ProbeFrame(db1, cfg, env, t);
    SnapRows(cfg, db1, db2, t, s);
  }

  lemma SnapRows(cfg: Config, db1: Db, db2: Db, t: TaskId, s: Snapshot)
    requires Inv(cfg, db2) && Settleable(db1, t) && Settleable(db2, t) && Advances(db1, db2)
    requires db2.tasks[t].current == db1.tasks[t].current && db2.tasks[t].desired == db1.tasks[t].desired && InTime(db2, t)
    requires s == Snapshot(t, db1.tasks[t], db1.tasks[t].current.value, db2.attempts[db1.tasks[t].current.value])
    requires s.arow.state.Succeeded?
    ensures SnapSound(db2, s)
  {
    hide Inv;
    KnownIds(cfg, db2);
    assert TaskAdvances(db1.tasks[t], db2.tasks[t]);
  }

  lemma {:induction false} ReconcileAllSnaps(cfg: Config, db: Db, env: Env, ids: seq<TaskId>)
    requires Inv(cfg, db) && Ascends(ids)
    requires forall t :: t in ids ==> t in db.tasks && !Terminal(db.tasks[t].status)
    ensures var (db1, snaps) := ReconcileAll(db, cfg, env, ids); forall s :: s in snaps ==> SnapSound(db1, s)
  {
    hide Inv, Advances, Reconcile, SnapSound;
    if ids != [] {
      var n := |ids| - 1;
      var t := ids[n];
      var (db1, snaps) := ReconcileAll(db, cfg, env, ids[..n]);
      ReconcileAllKeeps(cfg, db, env, ids[..n]);
      ReconcileAllSnaps(cfg, db, env, ids[..n]);
      assert t in ids && t !in ids[..n];
      assert db1.tasks[t] == db.tasks[t];
      var (db2, snap) := Reconcile(db1, cfg, env, t);
      ReconcileKeeps(cfg, db1, env, t);
      forall s | s in snaps ensures SnapSound(db2, s) {
        SnapStays(db1, db2, s);
      }
      if snap.Some? {
        ReconcileSnaps(cfg, db1, env, t, snap.value);
      }
    }
  }

  lemma TickSnaps(cfg: Config, db: Db, env: Env)
    requires Inv(cfg, db)
    ensures var (db1, snaps) := Tick(db, cfg, env); forall s :: s in snaps ==> SnapSound(db1, s)
  {
    hide Inv, Advances, ReconcileAll, ScheduleAll, SnapSound;
    var (db1, snaps) := ReconcileAll(db, cfg, env, OpenTasks(db));
    ReconcileAllKeeps(cfg, db, env, OpenTasks(db));
    ReconcileAllSnaps(cfg, db, env, OpenTasks(db));
    ScheduleAllKeeps(cfg, db1, env, EligibleTasks(db1));
    forall s | s in snaps ensures SnapSound(Tick(db, cfg, env).0, s) {
      SnapStays(db1, Tick(db, cfg, env).0, s);
    }
  }

  // -------------------------------------------------------------- atomic settlement

  /** The snapshot's attempt is the unsettled, successful current attempt of an open task. */
  predicate Awaits(db: Db, s: Snapshot) {
    && s.task in db.tasks && s.attempt in db.attempts && db.tasks[s.task].current == Some(s.attempt)
    && db.attempts[s.attempt].state.Succeeded? && !db.attempts[s.attempt].settled && !Terminal(db.tasks[s.task].status)
  }

  /** Rows that a verdict can be about are final, so none of its premises goes stale,
      and only cancel intent can have arrived meanwhile. */
  lemma NeverStale(db: Db, s: Snapshot, valid: bool)
    requires SnapSound(db, s) && Awaits(db, s)
    ensures !Stale(db.attempts[s.attempt], s.attempt, db.tasks[s.task], VerdictOf(s, valid))
    ensures db.tasks[s.task].desired.Run? ==> s.row.desired.Run?
  {
  }

  lemma CancelDecides(db: Db, t: TaskId, x: bool, y: bool)
    requires Settleable(db, t) && db.tasks[t].desired.Cancel?
    ensures Settle(db, t, x) == Settle(db, t, y) && !Settle(db, t, x).tasks[t].status.Succeeded?
  {
    hide RecordUsage, Executions;
  }

  /** With any steps between snapshot, validation and commit, the commit is one atomic
      settlement of the rows as they are now, or nothing. */
  lemma CommitRefinesAtomic(db: Db, s: Snapshot, valid: bool, plan: Option<PlanDoc>)
    requires SnapSound(db, s)
    ensures Commit(db, s, VerdictOf(s, valid), plan)
            == if Awaits(db, s) then SettleWithPlan(db, s.task, valid, plan) else db
  {
    hide Settle, SettlePlan, Stale, SnapSound;
    if Awaits(db, s) {
      NeverStale(db, s, valid);
      if db.tasks[s.task].desired.Cancel? {
        CancelDecides(db, s.task, valid, false);
      }
    }
  }

  lemma SettledPair(db: Db, t: TaskId, accepted: bool)
    requires Settleable(db, t)
    ensures var db1 := Settle(db, t, accepted);
            && t in db1.tasks && db.tasks[t].current.value in db1.attempts
            && db1.attempts[db.tasks[t].current.value].settled
            && db1.roots.Keys == db.roots.Keys
  {
    hide Executions;
  }

  /** Once a commit has changed anything, every other commit for the same attempt is void:
      an attempt settles exactly once, whichever manager comes second. */
  lemma SettlesOnce(cfg: Config, db: Db, s: Snapshot, valid: bool, plan: Option<PlanDoc>, z: Db, s2: Snapshot, valid2: bool, plan2: Option<PlanDoc>)
    requires Inv(cfg, db) && SnapSound(db, s) && s2.attempt == s.attempt
    requires Commit(db, s, VerdictOf(s, valid), plan) != db
    requires Advances(Commit(db, s, VerdictOf(s, valid), plan), z) && Inv(cfg, Commit(db, s, VerdictOf(s, valid), plan))
    ensures Commit(z, s2, VerdictOf(s2, valid2), plan2) == z
  {
    hide Inv, SettlePlan, Settle;
    CommitRefinesAtomic(db, s, valid, plan);
    SettledPair(db, s.task, valid);
    var db1 := Commit(db, s, VerdictOf(s, valid), plan);
    CommitSettles(cfg, db, s, valid, plan);
    KnownIds(cfg, db1);
    if s.attempt in z.attempts {
      assert AttemptAdvances(db1.attempts[s.attempt], z.attempts[s.attempt]);
    }
  }

  lemma CommitInTime(db: Db, s: Snapshot)
    requires SnapSound(db, s) && Awaits(db, s)
    ensures Settleable(db, s.task) && InTime(db, s.task)
  {
  }

  lemma AwaitsActive(cfg: Config, db: Db, s: Snapshot)
    requires Inv(cfg, db) && Awaits(db, s)
    ensures Active(db, s.task) && Settleable(db, s.task)
  {
    hide Inv;
    SoundTask(cfg, db, s.task);
  }

  lemma SettleWithPlanKeeps(cfg: Config, db: Db, t: TaskId, accepted: bool, plan: Option<PlanDoc>)
    requires Inv(cfg, db) && Active(db, t) && Settleable(db, t) && Done(db.attempts[db.tasks[t].current.value].state)
    requires accepted ==> InTime(db, t)
    ensures Inv(cfg, SettleWithPlan(db, t, accepted, plan)) && Advances(db, SettleWithPlan(db, t, accepted, plan))
  {
    hide Inv, Advances, Settle, SettlePlan;
    SettledPair(db, t, accepted);
    var settled := Settle(db, t, accepted);
    SettleKeeps(cfg, db, t, accepted);
    if settled.tasks[t].status.Succeeded? && t in db.roots {
      if plan.None? {
        AdvancesReflexive(db);
      } else {
        SettlePlanKeeps(cfg, settled, t, plan.value, false);
        AdvancesTransitive(cfg, db, settled, SettlePlan(settled, t, plan.value, false).0);
      }
    }
  }

  lemma CommitKeeps(cfg: Config, db: Db, s: Snapshot, valid: bool, plan: Option<PlanDoc>)
    requires Inv(cfg, db) && SnapSound(db, s)
    ensures var db1 := Commit(db, s, VerdictOf(s, valid), plan); Inv(cfg, db1) && Advances(db, db1)
  {
    hide Inv, Advances, SettleWithPlan, Commit, SnapSound;
    CommitRefinesAtomic(db, s, valid, plan);
    if Awaits(db, s) {
      CommitInTime(db, s);
      AwaitsActive(cfg, db, s);
      SettleWithPlanKeeps(cfg, db, s.task, valid, plan);
    } else {
      AdvancesReflexive(db);
    }
  }

  /** A commit that changes the database settles its attempt. */
  lemma CommitSettles(cfg: Config, db: Db, s: Snapshot, valid: bool, plan: Option<PlanDoc>)
    requires Inv(cfg, db) && SnapSound(db, s) && Commit(db, s, VerdictOf(s, valid), plan) != db
    ensures var db1 := Commit(db, s, VerdictOf(s, valid), plan); s.attempt < db1.nextId && (s.attempt in db1.attempts ==> db1.attempts[s.attempt].settled)
  {
    hide Inv, Advances, Settle, SettlePlan, SnapSound;
    CommitRefinesAtomic(db, s, valid, plan);
    CommitKeeps(cfg, db, s, valid, plan);
    CommitInTime(db, s);
    AwaitsActive(cfg, db, s);
    SettledPair(db, s.task, valid);
    var settled := Settle(db, s.task, valid);
    SettleKeeps(cfg, db, s.task, valid);
    SnapStays(db, Commit(db, s, VerdictOf(s, valid), plan), s);
    SnapKnown(Commit(db, s, VerdictOf(s, valid), plan), s);
    if settled.tasks[s.task].status.Succeeded? && s.task in db.roots && plan.Some? {
      SettlePlanKeeps(cfg, settled, s.task, plan.value, false);
      SettledStays(settled, SettlePlan(settled, s.task, plan.value, false).0, s.attempt);
    }
  }

  lemma SnapKnown(db: Db, s: Snapshot)
    requires SnapSound(db, s)
    ensures s.attempt < db.nextId
  {
  }

  lemma SettledStays(x: Db, y: Db, a: AttemptId)
    requires Advances(x, y) && a in x.attempts && x.attempts[a].settled
    ensures a in y.attempts ==> y.attempts[a] == x.attempts[a]
  {
  }
}
