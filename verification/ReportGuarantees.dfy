/** What a runner's claim, its requests and its reports change, and what settled usage does to a workflow. */
module ReportGuarantees {
  import opened Types
  import opened StoreOps
  import opened WorkflowOps
  import opened ManagerOps
  import opened RunnerOps
  import opened System
  import opened Invariant
  import opened PairProofs
  import opened TaskProofs
  import opened StoreProofs
  import opened SettleProofs
  import opened ScheduleProofs
  import opened PlanGuarantees

  // --------------------------------------------------------------------- launch claims

  /** The attempt waits for exactly this worker. */
  predicate AwaitsClaim(db: Db, a: AttemptId, w: WorkerId) {
    && a in db.attempts && db.attempts[a].worker == w && db.attempts[a].state.Queued?
    && db.attempts[a].task in db.tasks && db.tasks[db.attempts[a].task].current == Some(a)
  }

  /** The worker's present registration may still run the task. */
  predicate StillAble(db: Db, spec: Spec, w: WorkerId) {
    && w in db.workers && spec.runtime in db.workers[w].runtimes
    && (spec.sandbox.WorkspaceWrite? ==> db.workers[w].allowWrite)
  }

  /** A claim launches the attempt before anything else can happen, fails it for good when the worker may no longer
      run it or its process cannot be identified, and does nothing when the attempt does not wait for it. */
  lemma ClaimExactly(db: Db, a: AttemptId, w: WorkerId, identified: bool)
    ensures var (y, claim) := ClaimLaunch(db, a, w, identified);
            if !AwaitsClaim(db, a, w) then y == db && claim.Skipped?
            else
              var row := db.attempts[a];
              var task := db.tasks[row.task];
              && a in y.attempts && y == db.(attempts := db.attempts[a := y.attempts[a]], outbox := y.outbox, events := y.events)
              && if identified && StillAble(db, task.spec, w) then
                   && y.attempts[a] == row.(state := Launching, sequence := row.sequence + 1, heartbeat := db.clock)
                   && y.outbox == db.outbox[a := true]
                   && claim == Claimed(Runner(row.task, w, row.sequence + 1, 0, true, task.tokensUsed, task.usageUnknown, task.spec.budget.maxTokens))
                 else
                   && y.attempts[a] == row.(state := AttemptState.Failed, kind := Some(Permanent), sequence := row.sequence + 1,
                                            finishedAt := Some(db.clock), heartbeat := db.clock, tokens := Some(0))
                   && y.outbox == db.outbox && claim.Failed?
  {
  }

  // -------------------------------------------------------------------------- requests

  /** A bounded task may ask again only while everything it used is known and something is left. */
  lemma AsksExactly(r: Runner)
    ensures MayRequest(r) <==> (r.ceiling.Some? ==> r.usageKnown && !r.baseUnknown && r.base + r.tokens < r.ceiling.value)
  {
  }

  /** A counted response adds its tokens, a confirmed refusal adds nothing, and anything else leaves the total unknown. */
  lemma CountsExactly(r: Runner, response: Response)
    ensures var after := AfterResponse(r, response);
            && after == r.(tokens := after.tokens, usageKnown := after.usageKnown)
            && after.tokens == r.tokens + (if response.Counted? then response.tokens else 0)
            && (after.usageKnown <==> r.usageKnown && (response.Counted? || response.Refused?))
  {
  }

  /** What a reply means for the count: a completion counts what it says, a transient error is a confirmed refusal, and
      everything else may have used anything. */
  lemma RepliesCount(reply: Reply)
    ensures ResponseOf(reply).Counted? <==> reply.Completed? && reply.tokens.Some?
    ensures reply.Completed? && reply.tokens.Some? ==> ResponseOf(reply) == Counted(reply.tokens.value)
    ensures ResponseOf(reply).Refused? <==> reply == Fault(Transient)
  {
  }

  /** The check between operations stops a task that is gone, then one that is cancelled, then one that is out of time. */
  lemma CheckExactly(db: Db, t: TaskId, end: Time, deadline: Time, m: Moment)
    ensures var check := Checkpoint(db, t, end, deadline, m);
            && (check == Some(TaskGone) <==> t !in db.tasks)
            && (check == Some(Raised(Stopped)) <==> t in db.tasks && db.tasks[t].desired.Cancel?)
            && (check == Some(Raised(Permanent)) <==>
                  t in db.tasks && db.tasks[t].desired.Run? && (m.monotonic >= end || m.wall >= deadline))
            && (check.None? <==> t in db.tasks && db.tasks[t].desired.Run? && m.monotonic < end && m.wall < deadline)
  {
  }

  /** A request answers exactly with a completion that has content and arrives while the task may go on; silence and a
      broken call are uncertain, a classified error is passed on, and a blank completion is not tried again. */
  lemma EndsExactly(reply: Reply, check: Option<Ending>)
    requires check.Some? ==> check.value == TaskGone || check.value.Raised?
    ensures var ending := Concluded(reply, check);
            && (ending == Answered <==> reply.Completed? && !reply.blank && check.None?)
            && (reply.Silent? || reply.Interrupted? ==> ending == Raised(Uncertain))
            && (reply.Fault? ==> ending == Raised(reply.kind))
            && (reply.Completed? && check.Some? ==> Some(ending) == check)
            && (reply.Completed? && check.None? && reply.blank ==> ending == Raised(Permanent))
  {
  }

  /** One look at the clock while waiting: once the interval has passed, progress is reported as running, with what is
      known so far, under the next sequence number; a report that is not applied ends the wait. */
  lemma BeatExactly(p: Pulse, a: AttemptId, m: Moment)
    requires p.alive
    ensures var q, db := Beat(p, a, m), m.commits(p.db);
            && (m.monotonic < p.lastBeat + 0.25 ==> q == p.(db := db))
            && (m.monotonic >= p.lastBeat + 0.25 ==>
                  var r := p.runner;
                  var total := Some(if r.usageKnown then Some(r.tokens) else None);
                  var (db1, observed) := Observe(db, a, r.worker, r.sequence + 1, AttemptState.Running, Report(None, None, total, Some(r.tokens)));
                  && q.db == db1 && q.runner == r.(sequence := r.sequence + 1) && (q.alive <==> observed.Applied?)
                  && q.lastBeat == if q.alive then m.monotonic else p.lastBeat)
  {
    hide Observe;
  }

  // --------------------------------------------------------------------------- reports

  /** The report is about the execution under way, and newer than what is known of it. */
  predicate Topical(db: Db, a: AttemptId, worker: WorkerId, sequence: nat) {
    && a in db.attempts && db.attempts[a].task in db.tasks
    && db.attempts[a].worker == worker && sequence > db.attempts[a].sequence
    && !db.attempts[a].state.Succeeded? && !db.attempts[a].state.Failed? && !db.attempts[a].state.Cancelled?
    && db.tasks[db.attempts[a].task].current == Some(a)
    && (db.tasks[db.attempts[a].task].status.Pending? || db.tasks[db.attempts[a].task].status.Scheduled? || db.tasks[db.attempts[a].task].status.Running?)
  }

  /** The states an attempt may be reported to move to. */
  function Onward(x: AttemptState): set<AttemptState> {
    match x
    case Queued => {Launching, AttemptState.Cancelled, AttemptState.Failed}
    case Launching => {AttemptState.Running, AttemptState.Cancelled, AttemptState.Failed, Unknown}
    case Running => {AttemptState.Running, AttemptState.Succeeded, AttemptState.Failed, AttemptState.Cancelled, Unknown}
    case Unknown => {Unknown}
    case _ => {}
  }

  /** Reported usage is cumulative: the known part is the largest ever reported, and a total below it is no total. */
  predicate UsageMerged(row: Attempt, r: Report, row': Attempt) {
    var total := if r.tokens.Some? then r.tokens.value else row.tokens;
    if r.tokens.None? && r.knownTokens.None? then row'.tokens == row.tokens && row'.knownTokens == row.knownTokens
    else
      && row'.knownTokens >= row.knownTokens && row'.knownTokens >= r.knownTokens.GetOr(0)
      && (r.tokens.Some? && r.tokens.value.Some? ==> row'.knownTokens >= r.tokens.value.value)
      && (row'.knownTokens == row.knownTokens || r.knownTokens == Some(row'.knownTokens) || r.tokens == Some(Some(row'.knownTokens)))
      && row'.tokens == (if total.Some? && total.value < row'.knownTokens then None else total)
  }

  /** The attempt's row after a report that was applied. */
  predicate ReportedRow(a: AttemptId, row: Attempt, sequence: nat, state: AttemptState, r: Report, now: Time, row': Attempt) {
    && row' == row.(state := state, sequence := sequence, heartbeat := now, tokens := row'.tokens, knownTokens := row'.knownTokens,
                    resultPath := row'.resultPath, resultSha := row'.resultSha, kind := row'.kind,
                    startedAt := row'.startedAt, finishedAt := row'.finishedAt)
    && UsageMerged(row, r, row')
    && (r.resultSha.Some? ==> row'.resultPath == Some(a) && row'.resultSha == r.resultSha)
    && (r.resultSha.None? ==> row'.resultPath == row.resultPath && row'.resultSha == row.resultSha)
    && (r.kind.Some? ==> row'.kind == Some(r.kind.value)) && (r.kind.None? ==> row'.kind == row.kind)
    && row'.startedAt == (if state.Running? && row.startedAt.None? then Some(now) else row.startedAt)
    && row'.finishedAt == (if state.Succeeded? || state.Failed? || state.Cancelled? then Some(now) else row.finishedAt)
  }

  lemma RowReported(a: AttemptId, row: Attempt, sequence: nat, state: AttemptState, r: Report, now: Time)
    ensures ReportedRow(a, row, sequence, state, r, now, ObservedRow(a, row, sequence, state, r, now))
  {
  }

  lemma OnwardExactly(x: AttemptState, y: AttemptState)
    ensures Transition(x, y) <==> y in Onward(x)
  {
  }

  /** A report is applied exactly when it is topical and reports a state the attempt may move to; then it changes the
      attempt's row alone.  One that is not topical is dropped, one that moves elsewhere is denied, and neither
      changes anything. */
  lemma ObserveExactly(db: Db, a: AttemptId, worker: WorkerId, sequence: nat, state: AttemptState, r: Report)
    requires !state.Queued? && sequence >= 1 && a in db.attempts && db.attempts[a].task in db.tasks
    ensures var (y, observed) := Observe(db, a, worker, sequence, state, r);
            && (observed.Dropped? <==> !Topical(db, a, worker, sequence))
            && (observed == Denied(Conflict) <==> Topical(db, a, worker, sequence) && state !in Onward(db.attempts[a].state))
            && (observed.Applied? <==> Topical(db, a, worker, sequence) && state in Onward(db.attempts[a].state))
            && (!observed.Applied? ==> y == db)
            && (observed.Applied? ==>
                  && a in y.attempts && y == db.(attempts := db.attempts[a := y.attempts[a]], events := y.events)
                  && ReportedRow(a, db.attempts[a], sequence, state, r, db.clock, y.attempts[a]))
  {
    hide ReportedRow, ObservedRow, Transition, Onward, UsageConflict;
    OnwardExactly(db.attempts[a].state, state);
    RowReported(a, db.attempts[a], sequence, state, r, db.clock);
  }

  // ---------------------------------------------------------------------- runners' steps

  /** A claim that launches its attempt starts its runner, and nothing else does. */
  lemma ClaimStarts(cfg: Config, m: Machine, a: AttemptId, w: WorkerId, identified: bool)
    ensures var (db1, claim) := ClaimLaunch(m.db, a, w, identified);
            var m1 := Next(cfg, m, DoClaim(a, w, identified));
            m1.db == db1 && m1.runners == (if claim.Claimed? then m.runners[a := claim.runner] else m.runners)
  {
    hide ClaimLaunch, Observe, AfterResponse, MayRequest, InUnknown, InLaunch, Submit, CreateWorkflow, StoreOps.Cancel, Resolve, SettlePlanCommand;
    hide Deliver, RetainMark, RetainPhase, RetainPurge, RegisterWorker, HeartbeatWorker, Tick, Commit;
  }

  /** A request changes the memory of its runner only. */
  lemma RequestRemembers(cfg: Config, m: Machine, a: AttemptId, response: Response)
    ensures var m1 := Next(cfg, m, DoRequest(a, response));
            && m1.db == m.db
            && m1.runners == (if a in m.runners && MayRequest(m.runners[a]) then m.runners[a := AfterResponse(m.runners[a], response)] else m.runners)
  {
    hide ClaimLaunch, Observe, AfterResponse, MayRequest, InUnknown, InLaunch, Submit, CreateWorkflow, StoreOps.Cancel, Resolve, SettlePlanCommand;
    hide Deliver, RetainMark, RetainPhase, RetainPurge, RegisterWorker, HeartbeatWorker, Tick, Commit;
  }

  /** A runner reports what it counted under its next sequence number, and lives to its first report that is not applied. */
  lemma ReportContinues(cfg: Config, m: Machine, a: AttemptId, state: AttemptState, sha: Option<Label>, kind: Option<RunnerKind>, withTotal: bool)
    ensures var m1 := Next(cfg, m, DoReport(a, state, sha, kind, withTotal));
            if a !in m.runners then m1 == m
            else
              var r := m.runners[a];
              var total := if withTotal then Some(if r.usageKnown then Some(r.tokens) else None) else None;
              var (db1, observed) := Observe(m.db, a, r.worker, r.sequence + 1, state, Report(sha, kind, total, Some(r.tokens)));
              && m1.db == db1
              && m1.runners == (if observed.Applied? then m.runners[a := r.(sequence := r.sequence + 1)] else m.runners - {a})
  {
    hide ClaimLaunch, Observe, AfterResponse, MayRequest, InUnknown, InLaunch, Submit, CreateWorkflow, StoreOps.Cancel, Resolve, SettlePlanCommand;
    hide Deliver, RetainMark, RetainPhase, RetainPurge, RegisterWorker, HeartbeatWorker, Tick, Commit;
  }

  // ----------------------------------------------------------------------- settled usage

  /** The workflow of `t` is charged with the tokens, and fails when they are more than it has. */
  predicate ChargedWith(x: Root, y: Root, tokens: nat) {
    var used := x.tokensUsed + tokens;
    && (x.maxTokens.Some? && used > x.maxTokens.value ==> y == x.(tokensUsed := used, state := RootFailed, reason := Some(TokensExhausted)))
    && (!(x.maxTokens.Some? && used > x.maxTokens.value) ==> y == x.(tokensUsed := used))
  }

  lemma UsageExactly(tasks: map<TaskId, Task>, roots: map<TaskId, Root>, rows: seq<Child>, t: TaskId, tokens: nat, r: TaskId)
    requires Distinct(rows) && ChildrenSound(tasks, roots, rows) && r in roots
    ensures var roots' := RecordUsage(roots, rows, t, tokens);
            && roots'.Keys == roots.Keys
            && (IsChild(rows, r, t) ==> ChargedWith(roots[r], roots'[r], tokens))
            && (!IsChild(rows, r, t) ==> roots'[r] == roots[r])
  {
    OneOwner(rows, r, t);
    var found := LatestChild(rows, t);
    assert found.Some? ==> found.value.root in roots;
    hide IsChild, Distinct, ChildrenSound;
  }

  ghost predicate PartOf(db: Db, r: TaskId, t: TaskId) {
    exists c :: c in db.children && c.root == r && c.task == t
  }

  /** Settling an attempt charges its task's workflow with what it used, fails the workflow exactly when that is more
      than its tokens, and leaves every other workflow alone. */
  lemma SettlementCharges(cfg: Config, db: Db, t: TaskId, accepted: bool, r: TaskId)
    requires Inv(cfg, db) && Settleable(db, t) && r in db.roots
    ensures var y := Settle(db, t, accepted);
            && y.roots.Keys == db.roots.Keys
            && (PartOf(db, r, t) ==> ChargedWith(db.roots[r], y.roots[r], db.attempts[db.tasks[t].current.value].knownTokens))
            && (!PartOf(db, r, t) ==> y.roots[r] == db.roots[r])
  {
    hide Inv, SettledRows, Executions, RecordUsage, ChargedWith, SettleLog;
    InvFlow(cfg, db);
    UsageExactly(db.tasks, db.roots, db.children, t, db.attempts[db.tasks[t].current.value].knownTokens, r);
    assert IsChild(db.children, r, t) <==> PartOf(db, r, t);
  }

  /** A rejected plan is recorded and changes nothing else, except that without an accepted plan its workflow fails. */
  lemma RejectedPlanFails(db: Db, r: TaskId, doc: PlanDoc, replan: bool)
    requires r in db.roots && SettlePlan(db, r, doc, replan).1.state.Rejected?
    ensures var y := SettlePlan(db, r, doc, replan).0;
            && r in y.roots && y == db.(roots := db.roots[r := y.roots[r]], events := y.events)
            && y.roots[r].plans == db.roots[r].plans + [PlanRow(false, doc)]
            && (db.roots[r].planRevision == 0 ==> y.roots[r] == db.roots[r].(plans := y.roots[r].plans, state := RootFailed, reason := Some(PlanInvalid)))
            && (db.roots[r].planRevision > 0 ==> y.roots[r] == db.roots[r].(plans := y.roots[r].plans))
  {
    hide PreparePlan, AcceptPlan;
    if PreparePlan(db, r, doc, replan).Some? {
      AcceptedReceipt(db, r, doc, replan, PreparePlan(db, r, doc, replan).value);
    }
  }

  /** A plan that comes after an accepted one, and is no replan, is only noted. */
  lemma LatePlanIgnored(db: Db, r: TaskId, doc: PlanDoc)
    requires r in db.roots && db.roots[r].planRevision > 0
    ensures var (y, receipt) := SettlePlan(db, r, doc, false);
            receipt == Receipt(db.roots[r].planRevision, Ignored, []) && y == db.(events := y.events)
  {
  }
}
