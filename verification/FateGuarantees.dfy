/** What a settlement decides about a task, stated case by case for every reachable state. */
module FateGuarantees {
  import opened Types
  import opened StoreOps
  import opened WorkflowOps
  import opened ManagerOps
  import opened System
  import opened Invariant
  import opened PairProofs
  import opened TaskProofs
  import opened StoreProofs
  import opened SettleProofs
  import opened ScheduleProofs
  import opened PlanProofs
  import opened PlanGuarantees
  import opened CommitProofs
  import opened RunProofs
  import opened RunGuarantees

  // -------------------------------------------------------------------------- fates

  /** Executions of `t`: its attempts except the confirmed non-starts. */
  function Ran(attempts: map<AttemptId, Attempt>, t: TaskId): set<AttemptId> {
    set a | a in attempts && attempts[a].task == t && attempts[a].kind != Some(NotStarted)
  }

  function Doubled(n: nat): (r: nat)
    ensures r >= 1
  {
    if n == 0 then 1 else Doubled(n - 1) + Doubled(n - 1)
  }

  /** The wait before the next execution doubles with every one there has been. */
  function Backoff(retry: Retry, ran: nat): real
    requires ran > 0
  {
    retry.backoffSeconds * Doubled(ran - 1) as real
  }

  /** The task ends without a result. */
  predicate Ended(task: Task, after: Task, status: Status, reason: Option<Reason>, now: Time) {
    after.(tokensUsed := task.tokensUsed, usageUnknown := task.usageUnknown)
    == task.(status := status, reason := reason, finishedAt := Some(now), resultPath := None, resultSha := None)
  }

  /** The task waits for another attempt, from `at` on. */
  predicate Requeued(task: Task, after: Task, at: Time, reason: Reason) {
    after.(tokensUsed := task.tokensUsed, usageUnknown := task.usageUnknown)
    == task.(status := Pending, current := None, nextRunAt := at, reason := Some(reason))
  }

  /** The task ends with the result of its attempt. */
  predicate Validated(task: Task, row: Attempt, after: Task, now: Time) {
    after.(tokensUsed := task.tokensUsed, usageUnknown := task.usageUnknown)
    == task.(status := Status.Succeeded, reason := Some(OutputValidated), finishedAt := Some(now),
             resultPath := row.resultPath, resultSha := row.resultSha)
  }

  /** The attempt's usage is added once. */
  predicate Charges(task: Task, row: Attempt, after: Task) {
    && after.tokensUsed == task.tokensUsed + row.knownTokens
    && after.usageUnknown == (task.usageUnknown || row.tokens.None?)
  }

  /** A replay-safe task may fail this way and has room, time and known budget for one more execution. */
  predicate RetryAllowed(task: Task, row: Attempt, kind: Option<Kind>, ran: nat, now: Time) {
    var retry, ceiling := task.spec.retry, task.spec.budget.maxTokens;
    && retry.replaySafe && kind.Some? && kind.value in retry.on
    && 0 < ran < retry.maxAttempts
    && now + Backoff(retry, ran) < task.deadline
    && (ceiling.Some? ==> !task.usageUnknown && row.tokens.Some? && task.tokensUsed + row.knownTokens < ceiling.value)
  }

  /** What one settled attempt decides about its task. */
  predicate Fated(task: Task, row: Attempt, ran: nat, accepted: bool, now: Time, after: Task) {
    var kind := if row.state.Succeeded? then Some(Validation) else row.kind;
    && Charges(task, row, after)
    && (task.desired.Cancel? && task.reason == Some(DeadlineExceeded) ==> Ended(task, after, Status.Failed, task.reason, now))
    && (task.desired.Cancel? && task.reason != Some(DeadlineExceeded) ==> Ended(task, after, Status.Cancelled, task.reason, now))
    && (task.desired.Run? && row.kind == Some(NotStarted) ==> Requeued(task, after, now, WorkerLost))
    && (task.desired.Run? && row.kind != Some(NotStarted) ==>
          && (row.state.Succeeded? && accepted ==> Validated(task, row, after, now))
          && (!(row.state.Succeeded? && accepted) && RetryAllowed(task, row, kind, ran, now) ==>
                Requeued(task, after, now + Backoff(task.spec.retry, ran), AttemptError(kind)))
          && (!(row.state.Succeeded? && accepted) && !RetryAllowed(task, row, kind, ran, now) ==>
                Ended(task, after, Status.Failed, Some(AttemptError(kind)), now)))
  }

  /** The attempt keeps its evidence and gives its reservation back; a result that was not accepted is marked. */
  predicate Released(task: Task, row: Attempt, accepted: bool, row': Attempt) {
    && !row'.reserved && row'.settled
    && row' == row.(reserved := row'.reserved, settled := row'.settled, kind := row'.kind)
    && row'.kind == (if row.state.Succeeded? && !accepted && task.desired.Run? && row.kind != Some(NotStarted) then Some(Validation) else row.kind)
  }

  lemma {:induction false} SameDoubling(n: nat)
    ensures Pow2(n) == Doubled(n)
  {
    if n > 0 {
      SameDoubling(n - 1);
    }
  }

  lemma SameRetry(task: Task, row: Attempt, kind: Option<Kind>, ran: nat, now: Time)
    requires ran > 0
    ensures RetryDelay(task.spec.retry, ran) == Backoff(task.spec.retry, ran)
    ensures var task1 := task.(tokensUsed := task.tokensUsed + row.knownTokens, usageUnknown := task.usageUnknown || row.tokens.None?);
            MayRetry(task1, kind, ran, now) <==> RetryAllowed(task, row, kind, ran, now)
  {
    SameDoubling(ran - 1);
  }

  /** The rows that a settlement writes are the fated ones. */
  lemma RowsFated(task: Task, row: Attempt, accepted: bool, ran: nat, now: Time)
    requires row.kind != Some(NotStarted) ==> ran > 0
    ensures var (task', row') := SettledRows(task, row, accepted, ran, now);
            Fated(task, row, ran, accepted, now, task') && Released(task, row, accepted, row')
  {
    hide MayRetry, RetryAllowed, RetryDelay, Backoff;
    if row.kind != Some(NotStarted) {
      SameRetry(task, row, if row.state.Succeeded? then Some(Validation) else row.kind, ran, now);
    }
  }

  lemma RanOnce(db: Db, t: TaskId)
    requires Settleable(db, t) && db.attempts[db.tasks[t].current.value].task == t
    ensures Executions(db.attempts, t) == |Ran(db.attempts, t)|
    ensures db.attempts[db.tasks[t].current.value].kind != Some(NotStarted) ==> |Ran(db.attempts, t)| > 0
  {
    assert Executed(db.attempts, t) == Ran(db.attempts, t);
    var a := db.tasks[t].current.value;
    assert db.attempts[a].kind != Some(NotStarted) ==> a in Ran(db.attempts, t);
  }

  /** The rows of a settlement beside its task and attempt. */
  predicate Elsewhere(x: Db, y: Db, t: TaskId, a: AttemptId) {
    && y.tasks.Keys == x.tasks.Keys && y.attempts.Keys == x.attempts.Keys && y.clock == x.clock && y.workers == x.workers
    && y.children == x.children && y.transfers == x.transfers
    && (forall u :: u in x.tasks && u != t ==> y.tasks[u] == x.tasks[u])
    && (forall b :: b in x.attempts && b != a ==> y.attempts[b] == x.attempts[b])
  }

  lemma SettleFates(cfg: Config, db: Db, t: TaskId, accepted: bool)
    requires Inv(cfg, db) && Active(db, t) && Settleable(db, t)
    ensures var a := db.tasks[t].current.value;
            var db1 := Settle(db, t, accepted);
            && t in db1.tasks && a in db1.attempts && Elsewhere(db, db1, t, a)
            && Fated(db.tasks[t], db.attempts[a], |Ran(db.attempts, t)|, accepted, db.clock, db1.tasks[t])
            && Released(db.tasks[t], db.attempts[a], accepted, db1.attempts[a])
  {
    hide Inv, SettledRows, Fated, Released, Executions, Ran, RecordUsage;
    ActivePair(cfg, db, t);
    RanOnce(db, t);
    var a := db.tasks[t].current.value;
    RowsFated(db.tasks[t], db.attempts[a], accepted, Executions(db.attempts, t), db.clock);
  }

  // ------------------------------------------------------------------------ verdicts

  /** The tables after a commit decided about `t` and its attempt `a`. */
  ghost predicate Decides(x: Db, y: Db, t: TaskId, a: AttemptId, accepted: bool) {
    && t in x.tasks && a in x.attempts && t in y.tasks && a in y.attempts
    && Fated(x.tasks[t], x.attempts[a], |Ran(x.attempts, t)|, accepted, x.clock, y.tasks[t])
    && Released(x.tasks[t], x.attempts[a], accepted, y.attempts[a])
  }

  /** An accepted planner result that cannot be read back. */
  predicate Unreadable(x: Db, s: Snapshot, valid: bool, plan: Option<PlanDoc>) {
    valid && s.task in x.tasks && x.tasks[s.task].desired.Run? && s.task in x.roots && plan.None?
  }

  lemma FinalRows(x: Db, y: Db, t: TaskId, a: AttemptId)
    requires Advances(x, y) && t in x.tasks && Terminal(x.tasks[t].status) && t in y.tasks
    requires a in x.attempts && x.attempts[a].settled && a in y.attempts
    ensures y.tasks[t] == x.tasks[t] && y.attempts[a] == x.attempts[a]
  {
    assert TaskAdvances(x.tasks[t], y.tasks[t]);
  }

  /** Settling a plan leaves the planner's own rows as the settlement wrote them. */
  lemma PlanLeavesPlanner(cfg: Config, db: Db, r: TaskId, a: AttemptId, doc: PlanDoc)
    requires Inv(cfg, db) && r in db.roots && r in db.tasks && Terminal(db.tasks[r].status)
    requires a in db.attempts && db.attempts[a].settled && db.attempts[a].task == r
    ensures var db1 := SettlePlan(db, r, doc, false).0;
            r in db1.tasks && a in db1.attempts && db1.tasks[r] == db.tasks[r] && db1.attempts[a] == db.attempts[a]
  {
    hide Inv, Advances, SettlePlan;
    var db1 := SettlePlan(db, r, doc, false).0;
    SettlePlanKeeps(cfg, db, r, doc, false);
    RowsStay(db, r, doc);
    FinalRows(db, db1, r, a);
  }

  lemma PlanCases(db: Db, r: TaskId, doc: PlanDoc) returns (ps: seq<Prepared>)
    requires r in db.roots
    ensures var db1 := SettlePlan(db, r, doc, false).0;
            || (db.roots[r].planRevision > 0 && db1 == Log(db, r, PlanIgnored))
            || (db.roots[r].planRevision == 0 && (db1 == RecordRejected(db, r, doc) || db1 == AcceptPlan(db, r, doc, false, ps).0))
  {
    hide PreparePlan, AcceptPlan, RecordRejected, Log;
    ps := PreparePlan(db, r, doc, false).GetOr([]);
  }

  lemma RowsStay(db: Db, r: TaskId, doc: PlanDoc)
    requires r in db.roots
    ensures var db1 := SettlePlan(db, r, doc, false).0; db.tasks.Keys <= db1.tasks.Keys && db1.attempts == db.attempts
  {
    hide SettlePlan, AcceptPlan, RecordRejected;
    var ps := PlanCases(db, r, doc);
    RejectedStays(db, r, doc);
    AcceptedStays(db, r, doc, ps);
  }

  lemma RejectedStays(db: Db, r: TaskId, doc: PlanDoc)
    requires r in db.roots
    ensures var db1 := RecordRejected(db, r, doc); db1.tasks == db.tasks && db1.attempts == db.attempts
  {
  }

  lemma AcceptedStays(db: Db, r: TaskId, doc: PlanDoc, ps: seq<Prepared>)
    requires r in db.roots
    ensures var db1 := AcceptPlan(db, r, doc, false, ps).0; db.tasks.Keys <= db1.tasks.Keys && db1.attempts == db.attempts
  {
    hide InsertChildren;
    FilledRows(db, r, |db.roots[r].plans| + 1, ps);
  }

  lemma {:induction false} FilledRows(db: Db, r: TaskId, revision: nat, ps: seq<Prepared>)
    ensures var f := InsertChildren(db, r, revision, ps).0; db.tasks.Keys <= f.tasks.Keys && f.attempts == db.attempts
  {
    if ps != [] {
      FilledRows(db, r, revision, ps[..|ps| - 1]);
    }
  }

  lemma FateEnds(task: Task, row: Attempt, ran: nat, now: Time, after: Task)
    requires Fated(task, row, ran, true, now, after) && row.state.Succeeded? && row.kind != Some(NotStarted)
    ensures task.desired.Run? <==> after.status.Succeeded?
    ensures Terminal(after.status)
  {
  }

  lemma SettleDecides(cfg: Config, db: Db, s: Snapshot, valid: bool, plan: Option<PlanDoc>)
    requires Inv(cfg, db) && SnapSound(db, s) && Awaits(db, s)
    ensures var db1 := SettleWithPlan(db, s.task, valid, plan);
            if Unreadable(db, s, valid, plan) then db1 == db
            else Decides(db, db1, s.task, s.attempt, valid)
  {
    hide Inv, Settle, SettlePlan, Fated, Released, Ran, SnapSound, Advances;
    AwaitsActive(cfg, db, s);
    CommitInTime(db, s);
    ActivePair(cfg, db, s.task);
    SettleFates(cfg, db, s.task, valid);
    SettleKeeps(cfg, db, s.task, valid);
    SettledPair(db, s.task, valid);
    var settled := Settle(db, s.task, valid);
    SuccessOnce(db.tasks[s.task], db.attempts[s.attempt], |Ran(db.attempts, s.task)|, valid, db.clock, settled.tasks[s.task]);
    if settled.tasks[s.task].status.Succeeded? && s.task in db.roots && plan.Some? {
      ReleasedTask(db.tasks[s.task], db.attempts[s.attempt], valid, settled.attempts[s.attempt]);
      PlanLeavesPlanner(cfg, settled, s.task, s.attempt, plan.value);
    }
  }

  lemma ReleasedTask(task: Task, row: Attempt, accepted: bool, row': Attempt)
    requires Released(task, row, accepted, row')
    ensures row'.task == row.task
  {
  }

  /** A successful attempt succeeds its task exactly when it is accepted and still wanted. */
  lemma SuccessOnce(task: Task, row: Attempt, ran: nat, accepted: bool, now: Time, after: Task)
    requires Fated(task, row, ran, accepted, now, after) && row.state.Succeeded? && AttemptSound(task.current.GetOr(0), row, now)
    ensures after.status.Succeeded? <==> accepted && task.desired.Run?
  {
  }

  /** The commit of a verdict, in every reachable state, decides the task by the rows as they are then:
      nothing happens unless the snapshot's attempt still awaits its verdict, an accepted planner whose
      result cannot be read back stays as it is, and otherwise the task gets exactly its fate. */
  lemma VerdictDecides(cfg: Config, steps: seq<Step>, s: Snapshot, valid: bool, plan: Option<PlanDoc>)
    requires s in Reached(cfg, steps).flight
    ensures var x := Reached(cfg, steps).db;
            var y := Next(cfg, Reached(cfg, steps), DoCommit(s, valid, plan)).db;
            if !Awaits(x, s) || Unreadable(x, s, valid, plan) then y == x else Decides(x, y, s.task, s.attempt, valid)
  {
    hide Reached, Sound, Inv, SnapSound, Awaits, Commit, SettleWithPlan, Decides, InUnknown, InLaunch;
    ReachedSound(cfg, steps);
    var m := Reached(cfg, steps);
    FlightSound(cfg, m, s);
    CommitRefinesAtomic(m.db, s, valid, plan);
    if Awaits(m.db, s) {
      SettleDecides(cfg, m.db, s, valid, plan);
    }
  }

  /** An accepted result of a task that still wants to run makes it Succeeded, with the result of its attempt. */
  lemma AcceptedSucceeds(cfg: Config, steps: seq<Step>, s: Snapshot, plan: Option<PlanDoc>)
    requires s in Reached(cfg, steps).flight && Awaits(Reached(cfg, steps).db, s)
    requires var x := Reached(cfg, steps).db; x.tasks[s.task].desired.Run? && (s.task in x.roots ==> plan.Some?)
    ensures var x := Reached(cfg, steps).db;
            var y := Next(cfg, Reached(cfg, steps), DoCommit(s, true, plan)).db;
            && s.task in y.tasks
            && y.tasks[s.task].status.Succeeded? && y.tasks[s.task].reason == Some(OutputValidated)
            && y.tasks[s.task].finishedAt == Some(x.clock) && y.tasks[s.task].current == Some(s.attempt)
            && y.tasks[s.task].resultPath == x.attempts[s.attempt].resultPath
            && y.tasks[s.task].resultSha == x.attempts[s.attempt].resultSha
  {
    hide Reached, Inv, Next, RetryAllowed, Charges, Released, Ran, Backoff, Ended, Requeued;
    ReachedSound(cfg, steps);
    VerdictDecides(cfg, steps, s, true, plan);
    SoundAttempt(cfg, Reached(cfg, steps).db, s.attempt);
  }

  /** The plan is one more entry of the workflow's record, unless a revision is already current. */
  lemma PlanRecorded(db: Db, r: TaskId, doc: PlanDoc)
    requires r in db.roots
    ensures var db1 := SettlePlan(db, r, doc, false).0;
            && r in db1.roots
            && (db.roots[r].planRevision > 0 ==> db1.roots == db.roots)
            && (db.roots[r].planRevision == 0 ==>
                  |db1.roots[r].plans| == |db.roots[r].plans| + 1 && db.roots[r].plans < db1.roots[r].plans
                  && db1.roots[r].plans[|db.roots[r].plans|].doc == doc)
  {
    hide SettlePlan, AcceptPlan;
    var ps := PlanCases(db, r, doc);
    AcceptedReceipt(db, r, doc, false, ps);
  }

  lemma PlannerUncharged(cfg: Config, db: Db, r: TaskId, accepted: bool)
    requires Inv(cfg, db) && r in db.roots && Settleable(db, r)
    ensures Settle(db, r, accepted).roots == db.roots
  {
    hide Inv, SettledRows, Executions;
    if c :| c in db.children && c.task == r {
      KnownChild(cfg, db, c);
    }
  }

  /** The same commit that makes a planner Succeeded records the plan it produced. */
  lemma PlanJoinsCommit(cfg: Config, steps: seq<Step>, s: Snapshot, doc: PlanDoc)
    requires s in Reached(cfg, steps).flight && Awaits(Reached(cfg, steps).db, s)
    requires var x := Reached(cfg, steps).db; s.task in x.roots && x.tasks[s.task].desired.Run? && x.roots[s.task].planRevision == 0
    ensures var x := Reached(cfg, steps).db;
            var y := Next(cfg, Reached(cfg, steps), DoCommit(s, true, Some(doc))).db;
            && s.task in y.roots
            && |y.roots[s.task].plans| == |x.roots[s.task].plans| + 1 && x.roots[s.task].plans < y.roots[s.task].plans
            && y.roots[s.task].plans[|x.roots[s.task].plans|].doc == doc
  {
    hide Reached, Sound, Inv, SnapSound, Settle, SettlePlan, Commit, Fated, Released, Ran, InUnknown, InLaunch;
    ReachedSound(cfg, steps);
    var m := Reached(cfg, steps);
    FlightSound(cfg, m, s);
    CommitRefinesAtomic(m.db, s, true, Some(doc));
    AwaitsActive(cfg, m.db, s);
    SettleFates(cfg, m.db, s.task, true);
    SoundAttempt(cfg, m.db, s.attempt);
    var settled := Settle(m.db, s.task, true);
    SuccessOnce(m.db.tasks[s.task], m.db.attempts[s.attempt], |Ran(m.db.attempts, s.task)|, true, m.db.clock, settled.tasks[s.task]);
    PlannerUncharged(cfg, m.db, s.task, true);
    PlanRecorded(settled, s.task, doc);
  }
}
