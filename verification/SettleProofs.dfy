/** Reconciliation and settlement keep the invariant. */
module SettleProofs {
  import opened Types
  import opened Sums
  import opened StoreOps
  import opened WorkflowOps
  import opened ManagerOps
  import opened Invariant
  import opened PairProofs
  import opened TaskProofs
  import opened StoreProofs

  // ----------------------------------------------------------------- settlement

  /** Usage reaches exactly the workflow whose child `t` is. */
  lemma UsageCharged(tasks: map<TaskId, Task>, roots: map<TaskId, Root>, rows: seq<Child>, t: TaskId, tokens: nat)
    requires Distinct(rows) && ChildrenSound(tasks, roots, rows)
    ensures Charged(roots, rows, t, tokens, RecordUsage(roots, rows, t, tokens))
  {
    var found := LatestChild(rows, t);
    var roots' := RecordUsage(roots, rows, t, tokens);
    forall r | r in roots ensures ChargedRoot(roots[r], roots'[r], if IsChild(rows, r, t) then tokens else 0) {
      if found.Some? {
        assert found.value.root in roots;
        if IsChild(rows, r, t) {
          var c :| c in rows && c.root == r && c.task == t;
          assert Akin(c, found.value);
        } else {
          assert r != found.value.root;
        }
      }
    }
  }

  /** A retry leaves budget and executions for one more attempt. */
  lemma RetrySound(task: Task, kind: Option<Kind>, executed: nat, now: Time)
    requires ValidSpec(task.spec) && MayRetry(task, kind, executed, now)
    ensures Retriable(kind) && executed < Limit(task.spec)
    ensures task.spec.budget.maxTokens.Some? ==> task.tokensUsed < task.spec.budget.maxTokens.value
  {
  }

  /** The attempt's half of a settlement. */
  lemma SettledRowSound(task: Task, a: AttemptId, row: Attempt, accepted: bool, executed: nat, now: Time)
    requires AttemptSound(a, row, now) && !row.settled && Done(row.state)
    ensures var row' := SettledRows(task, row, accepted, executed, now).1;
            AttemptSound(a, row', now) && AttemptAdvances(row, row') && row'.settled && row'.knownTokens == row.knownTokens
  {
  }

  /** The task's half of a settlement. */
  lemma SettledTaskSound(task: Task, a: AttemptId, row: Attempt, accepted: bool, executed: nat, now: Time)
    requires TaskSound(task) && task.current == Some(a) && Open(task.status)
    requires AttemptSound(a, row, now) && Done(row.state)
    ensures var task' := SettledRows(task, row, accepted, executed, now).0;
            && TaskSound(task') && TaskAdvances(task, task') && !Open(task'.status)
            && (!task'.status.Pending? ==> task'.current == Some(a))
            && task'.tokensUsed == task.tokensUsed + row.knownTokens
  {
    var kind := if row.state.Succeeded? then Some(Validation) else row.kind;
    var task1 := task.(tokensUsed := task.tokensUsed + row.knownTokens, usageUnknown := task.usageUnknown || row.tokens.None?);
    if MayRetry(task1, kind, executed, now) {
      RetrySound(task1, kind, executed, now);
    }
  }

  /** Settlement turns an open pair into a legal next pair. */
  lemma SettledSound(t: TaskId, task: Task, a: AttemptId, row: Attempt, accepted: bool, executed: nat, after: nat, now: Time)
    requires TaskSound(task) && AttemptSound(a, row, now) && row.task == t
    requires task.current == Some(a) && Open(task.status) && !row.settled && Done(row.state)
    requires accepted && row.state.Succeeded? && task.desired.Run? ==> row.finishedAt.value <= task.deadline
    requires row.kind == Some(NotStarted) ==> after < Limit(task.spec)
    requires row.kind != Some(NotStarted) ==> after == executed
    ensures var (task', row') := SettledRows(task, row, accepted, executed, now);
            PairChange(t, task, task', a, row, row', after, now)
  {
    var (task', row') := SettledRows(task, row, accepted, executed, now);
    SettledRowSound(task, a, row, accepted, executed, now);
    SettledTaskSound(task, a, row, accepted, executed, now);
    var kind := if row.state.Succeeded? then Some(Validation) else row.kind;
    var task1 := task.(tokensUsed := task.tokensUsed + row.knownTokens, usageUnknown := task.usageUnknown || row.tokens.None?);
    if MayRetry(task1, kind, executed, now) {
      RetrySound(task1, kind, executed, now);
    }
    hide TaskSound, AttemptSound, TaskAdvances, AttemptAdvances, MayRetry, ValidSpec;
    assert row.kind == Some(NotStarted) ==> Retriable(row.kind);
  }

  lemma NotStartedCount(attempts: map<AttemptId, Attempt>, a: AttemptId, arow: Attempt, t: TaskId)
    requires a in attempts && arow.kind == Some(NotStarted)
    ensures Executed(attempts[a := arow], t) == Earlier(attempts, t, Some(a))
  {
  }

  lemma RoomLeft(cfg: Config, db: Db, t: TaskId)
    requires Inv(cfg, db) && t in db.tasks
    ensures WithinLimit(db.tasks[t], t, db.attempts)
  {
  }

  lemma InvFlow(cfg: Config, db: Db)
    requires Inv(cfg, db)
    ensures Distinct(db.children) && ChildrenSound(db.tasks, db.roots, db.children)
  {
  }

  /** An open task with its current attempt. */
  predicate Active(db: Db, t: TaskId) {
    t in db.tasks && Open(db.tasks[t].status)
  }

  lemma ActivePair(cfg: Config, db: Db, t: TaskId)
    requires Inv(cfg, db) && Active(db, t)
    ensures Settleable(db, t)
    ensures var a := db.tasks[t].current.value;
            db.attempts[a].task == t && !db.attempts[a].settled && AttemptSound(a, db.attempts[a], db.clock)
    ensures TaskSound(db.tasks[t])
  {
    hide Inv;
    SoundTask(cfg, db, t);
    SoundAttempt(cfg, db, db.tasks[t].current.value);
  }

  predicate InTime(db: Db, t: TaskId)
    requires Settleable(db, t)
  {
    var row := db.attempts[db.tasks[t].current.value];
    row.state.Succeeded? && db.tasks[t].desired.Run? ==> row.finishedAt.Some? && row.finishedAt.value <= db.tasks[t].deadline
  }

  lemma SettleKeeps(cfg: Config, db: Db, t: TaskId, accepted: bool)
    requires Inv(cfg, db) && Active(db, t) && Settleable(db, t) && Done(db.attempts[db.tasks[t].current.value].state)
    requires accepted ==> InTime(db, t)
    ensures Inv(cfg, Settle(db, t, accepted)) && Advances(db, Settle(db, t, accepted))
  {
    hide Inv, Advances, Executions, Executed, Earlier, RecordUsage, Charged;
    ActivePair(cfg, db, t);
    var a := db.tasks[t].current.value;
    var row := db.attempts[a];
    var executed := Executions(db.attempts, t);
    var (task', row') := SettledRows(db.tasks[t], row, accepted, executed, db.clock);
    SettleCount(cfg, db, t, accepted);
    SettledSound(t, db.tasks[t], a, row, accepted, executed, Executions(db.attempts[a := row'], t), db.clock);
    InvFlow(cfg, db);
    UsageCharged(db.tasks, db.roots, db.children, t, row.knownTokens);
    InvReferences(cfg, db);
    EventsKnown(db);
    var events := db.events + SettleLog(t, db.tasks[t], row, accepted, task');
    PairKeeps(cfg, db, t, task', a, row', RecordUsage(db.roots, db.children, t, row.knownTokens), events);
  }

  /** Settlement leaves the count of executions alone, and a non-start leaves room. */
  lemma SettleCount(cfg: Config, db: Db, t: TaskId, accepted: bool)
    requires Inv(cfg, db) && Active(db, t) && Settleable(db, t)
    ensures var a := db.tasks[t].current.value;
            var row := db.attempts[a];
            var row' := SettledRows(db.tasks[t], row, accepted, Executions(db.attempts, t), db.clock).1;
            var after := Executions(db.attempts[a := row'], t);
            (row.kind == Some(NotStarted) ==> after < Limit(db.tasks[t].spec))
            && (row.kind != Some(NotStarted) ==> after == Executions(db.attempts, t))
  {
    hide Inv;
    ActivePair(cfg, db, t);
    RoomLeft(cfg, db, t);
    var a := db.tasks[t].current.value;
    var row := db.attempts[a];
    var row' := SettledRows(db.tasks[t], row, accepted, Executions(db.attempts, t), db.clock).1;
    if row.kind == Some(NotStarted) {
      NotStartedCount(db.attempts, a, row', t);
    } else {
      ExecutedSet(db.attempts, a, row', t);
    }
  }

  // -------------------------------------------------------------- reconciliation

  lemma EnforceDeadlineKeeps(cfg: Config, db: Db, t: TaskId)
    requires Inv(cfg, db) && t in db.tasks && !Terminal(db.tasks[t].status)
    ensures Inv(cfg, EnforceDeadline(db, t)) && Advances(db, EnforceDeadline(db, t))
  {
    hide Inv, Advances;
    var db1 := EnforceDeadline(db, t);
    SoundTask(cfg, db, t);
    if db1 != db {
      InvReferences(cfg, db);
      EventsKnown(db);
      assert db1 == db.(tasks := db.tasks[t := db1.tasks[t]], events := db1.events);
      TaskKeeps(cfg, db, t, db1.tasks[t], db1.events);
    } else {
      AdvancesReflexive(db);
    }
  }

  /** Afterwards a success that still wants to run came before its deadline. */
  lemma EnforceDeadlineWorks(cfg: Config, db: Db, t: TaskId)
    requires Inv(cfg, db) && Active(db, t)
    ensures Settleable(EnforceDeadline(db, t), t) && InTime(EnforceDeadline(db, t), t)
  {
    hide Inv;
    ActivePair(cfg, db, t);
  }

  lemma ProbedSound(a: AttemptId, row: Attempt, cancelling: bool, lost: bool, alive: bool, now: Time)
    requires AttemptSound(a, row, now) && !row.settled
    ensures var row' := ProbedRow(row, cancelling, lost, alive, now);
            AttemptSound(a, row', now) && AttemptAdvances(row, row') && !row'.settled
  {
  }

  lemma ProbeKeeps(cfg: Config, db: Db, env: Env, t: TaskId)
    requires Inv(cfg, db) && Active(db, t) && Settleable(db, t)
    ensures Inv(cfg, Probe(db, cfg, env, t)) && Advances(db, Probe(db, cfg, env, t))
    ensures Active(Probe(db, cfg, env, t), t)
  {
    hide Inv, Advances, Executions, Charged, ProbedRow, AttemptSound, AttemptAdvances, PairChange, WorkerLostNow;
    ActivePair(cfg, db, t);
    var a := db.tasks[t].current.value;
    var row := db.attempts[a];
    var db1 := Probe(db, cfg, env, t);
    ProbedSound(a, row, db.tasks[t].desired.Cancel?, WorkerLostNow(db, cfg, row.worker), a in env.alive, db.clock);
    InvReferences(cfg, db);
    EventsKnown(db);
    Uncharged(db.roots, db.children, t);
    var task, arow := db1.tasks[t], db1.attempts[a];
    OpenPair(t, db.tasks[t], task, a, row, arow, Executions(db.attempts[a := arow], t), db.clock);
    PairKeeps(cfg, db, t, task, a, arow, db.roots, db1.events);
    assert db1 == db.(tasks := db.tasks[t := task], attempts := db.attempts[a := arow], roots := db.roots, events := db1.events);
  }

  /** An open pair whose task at most starts running. */
  lemma OpenPair(t: TaskId, task: Task, row: Task, a: AttemptId, att: Attempt, arow: Attempt, executed: nat, now: Time)
    requires task.current == Some(a) && Open(task.status) && !att.settled && att.task == t
    requires TaskSound(task) && (row == task || row == task.(status := Status.Running))
    requires AttemptAdvances(att, arow) && AttemptSound(a, arow, now) && !arow.settled
    ensures PairChange(t, task, row, a, att, arow, executed, now)
  {
    hide AttemptSound, AttemptAdvances;
  }

  lemma Uncharged(roots: map<TaskId, Root>, rows: seq<Child>, t: TaskId)
    ensures Charged(roots, rows, t, 0, roots)
  {
  }

  /** The attempt that `Probe` leaves is the one it looked at, and a success keeps its evidence. */
  lemma ProbeInTime(db: Db, cfg: Config, env: Env, t: TaskId)
    requires Settleable(db, t) && InTime(db, t)
    ensures Settleable(Probe(db, cfg, env, t), t) && InTime(Probe(db, cfg, env, t), t)
  {
  }

  lemma ReconcileKeeps(cfg: Config, db: Db, env: Env, t: TaskId)
    requires Inv(cfg, db) && t in db.tasks && !Terminal(db.tasks[t].status)
    ensures Inv(cfg, Reconcile(db, cfg, env, t).0) && Advances(db, Reconcile(db, cfg, env, t).0)
  {
    hide Inv, Advances, Probe, Settle, EnforceDeadline;
    var db1 := EnforceDeadline(db, t);
    var (result, snap) := Reconcile(db, cfg, env, t);
    EnforceDeadlineKeeps(cfg, db, t);
    EnforceDeadlineFrame(db, t);
    var task := db1.tasks[t];
    SoundTask(cfg, db1, t);
    if task.status.Pending? {
      if task.desired.Cancel? {
        InvReferences(cfg, db1);
        EventsKnown(db1);
        TaskKeeps(cfg, db1, t, FinishCancelled(task, db.clock), result.events);
        AdvancesTransitive(cfg, db, db1, result);
      }
    } else {
      ActivePair(cfg, db1, t);
      var db2 := Probe(db1, cfg, env, t);
      ProbeKeeps(cfg, db1, env, t);
      AdvancesTransitive(cfg, db, db1, db2);
      ActivePair(cfg, db2, t);
      ProbeFrame(db1, cfg, env, t);
      var row := db2.attempts[task.current.value];
      if Done(row.state) && !row.settled && !row.state.Succeeded? {
        SettleKeeps(cfg, db2, t, false);
        AdvancesTransitive(cfg, db, db2, result);
      }
    }
  }

  lemma EnforceDeadlineFrame(db: Db, t: TaskId)
    requires t in db.tasks
    ensures var db1 := EnforceDeadline(db, t);
            && t in db1.tasks && db1.tasks[t].status == db.tasks[t].status && db1.tasks[t].current == db.tasks[t].current
            && db1.clock == db.clock && db1.attempts == db.attempts
  {
  }

  lemma ProbeFrame(db: Db, cfg: Config, env: Env, t: TaskId)
    requires Settleable(db, t)
    ensures var db1 := Probe(db, cfg, env, t);
            && t in db1.tasks && db1.tasks[t].current == db.tasks[t].current && db1.clock == db.clock
            && db1.tasks[t].desired == db.tasks[t].desired
  {
  }

  /** The other task rows of two databases agree. */
  ghost predicate OthersKept(db: Db, db1: Db, t: TaskId) {
    forall x :: x in db.tasks && x != t ==> x in db1.tasks && db1.tasks[x] == db.tasks[x]
  }

  lemma ProbeOthers(db: Db, cfg: Config, env: Env, t: TaskId)
    requires Settleable(db, t)
    ensures OthersKept(db, Probe(db, cfg, env, t), t)
  {
    hide ProbedRow, WorkerLostNow;
  }

  lemma SettleOthers(db: Db, t: TaskId, accepted: bool)
    requires Settleable(db, t)
    ensures OthersKept(db, Settle(db, t, accepted), t)
  {
    hide SettledRows, Executions, RecordUsage;
  }

  lemma OthersCompose(x: Db, y: Db, z: Db, t: TaskId)
    requires OthersKept(x, y, t) && OthersKept(y, z, t)
    ensures OthersKept(x, z, t)
  {
  }

  lemma OneTaskOthers(db: Db, t: TaskId, row: Task, events: seq<Event>)
    ensures OthersKept(db, db.(tasks := db.tasks[t := row], events := events), t)
  {
  }

  lemma DeadlineOthers(db: Db, t: TaskId)
    requires t in db.tasks
    ensures OthersKept(db, EnforceDeadline(db, t), t)
  {
    hide SucceededInTime;
  }

  /** Reconciling one task leaves every other task row alone. */
  lemma ReconcileOthers(cfg: Config, db: Db, env: Env, t: TaskId)
    ensures OthersKept(db, Reconcile(db, cfg, env, t).0, t)
  {
    hide Settle, FinishCancelled, ProbedRow, WorkerLostNow, EnforceDeadline, OthersKept, Probe;
    if t in db.tasks {
      var db1 := EnforceDeadline(db, t);
      DeadlineOthers(db, t);
      EnforceDeadlineFrame(db, t);
      var task := db1.tasks[t];
      var ended := Log(db1.(tasks := db1.tasks[t := FinishCancelled(task, db.clock)]), t, TaskFinished);
      OneTaskOthers(db1, t, FinishCancelled(task, db.clock), ended.events);
      OthersCompose(db, db1, ended, t);
      if !task.status.Pending? && Settleable(db1, t) {
        var db2 := Probe(db1, cfg, env, t);
        ProbeOthers(db1, cfg, env, t);
        OthersCompose(db, db1, db2, t);
        ProbeFrame(db1, cfg, env, t);
        ProbeStays(db1, cfg, env, t);
        SettleOthers(db2, t, false);
        OthersCompose(db, db2, Settle(db2, t, false), t);
      }
    } else {
      NoOthers(db, t);
    }
  }

  lemma NoOthers(db: Db, t: TaskId)
    ensures OthersKept(db, db, t)
  {
  }

  lemma ProbeStays(db: Db, cfg: Config, env: Env, t: TaskId)
    requires Settleable(db, t)
    ensures Settleable(Probe(db, cfg, env, t), t)
  {
    hide ProbedRow, WorkerLostNow;
  }

  predicate Ascends(ids: seq<nat>) {
    forall i, j :: 0 <= i < j < |ids| ==> ids[i] < ids[j]
  }

  lemma {:induction false} ReconcileAllKeeps(cfg: Config, db: Db, env: Env, ids: seq<TaskId>)
    requires Inv(cfg, db) && Ascends(ids)
    requires forall t :: t in ids ==> t in db.tasks && !Terminal(db.tasks[t].status)
    ensures var db1 := ReconcileAll(db, cfg, env, ids).0; Inv(cfg, db1) && Advances(db, db1)
    ensures forall x :: x in db.tasks && x !in ids ==>
      x in ReconcileAll(db, cfg, env, ids).0.tasks && ReconcileAll(db, cfg, env, ids).0.tasks[x] == db.tasks[x]
  {
    hide Inv, Advances, Reconcile;
    if ids == [] {
      AdvancesReflexive(db);
    } else {
      var n := |ids| - 1;
      var t := ids[n];
      var db1 := ReconcileAll(db, cfg, env, ids[..n]).0;
      var db2 := Reconcile(db1, cfg, env, t).0;
      ReconcileAllKeeps(cfg, db, env, ids[..n]);
      assert t !in ids[..n];
      ReconcileKeeps(cfg, db1, env, t);
      ReconcileOthers(cfg, db1, env, t);
      AdvancesTransitive(cfg, db, db1, db2);
      forall x | x in db.tasks && x !in ids ensures x in db2.tasks && db2.tasks[x] == db.tasks[x] {
        assert x != t && x !in ids[..n];
      }
    }
  }
}
