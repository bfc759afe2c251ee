/** One detached runner per attempt: the launch claim, model requests and reports. */
module RunnerOps {
  import opened Types
  import opened StoreOps

  /** A runner's memory: what it read at its claim and what it has counted since. */
  datatype Runner = Runner(task: TaskId, worker: WorkerId, sequence: nat, tokens: nat, usageKnown: bool,
                           base: nat, baseUnknown: bool, ceiling: Option<int>)

  datatype Claim = Skipped | Failed | Claimed(runner: Runner)

  predicate Permitted(db: Db, w: WorkerId, spec: Spec) {
    && w in db.workers && spec.runtime in db.workers[w].runtimes
    && (spec.sandbox.ReadOnly? || db.workers[w].allowWrite)
  }

  function RejectedRow(row: Attempt, now: Time): Attempt {
    row.(state := AttemptState.Failed, sequence := row.sequence + 1, finishedAt := Some(now), heartbeat := now,
         tokens := Some(0), kind := Some(Permanent))
  }

  /** The claim commits Launching before any effect, and only from Queued. */
  function ClaimLaunch(db: Db, a: AttemptId, w: WorkerId, identified: bool): (Db, Claim) {
    if a !in db.attempts || db.attempts[a].worker != w || !db.attempts[a].state.Queued? then (db, Skipped)
    else
      var row := db.attempts[a];
      var t := row.task;
      if t !in db.tasks || db.tasks[t].current != Some(a) then (db, Skipped)
      else if !Permitted(db, w, db.tasks[t].spec) || !identified then
        (Log(db.(attempts := db.attempts[a := RejectedRow(row, db.clock)]), t, AttemptRejected), Claim.Failed)
      else
        var launched := row.(state := Launching, sequence := row.sequence + 1, heartbeat := db.clock);
        var task := db.tasks[t];
        (Log(db.(attempts := db.attempts[a := launched], outbox := db.outbox[a := true]), t, AttemptClaimed),
         Claimed(Runner(t, w, launched.sequence, 0, true, task.tokensUsed, task.usageUnknown, task.spec.budget.maxTokens)))
  }

  /** What one provider call comes back with. */
  datatype Response = Counted(tokens: nat) | Uncounted | Refused | Lost

  predicate MayRequest(r: Runner) {
    r.ceiling.None? || (r.usageKnown && !r.baseUnknown && r.ceiling.value - r.base - r.tokens > 0)
  }

  /** The runner after one permitted request; a confirmed refusal used nothing. */
  function AfterResponse(r: Runner, response: Response): Runner {
    match response
    case Counted(n) => r.(tokens := r.tokens + n)
    case Refused => r
    case _ => r.(usageKnown := false)
  }

  // ------------------------------------------------------- one request, step by step

  const HEARTBEAT_SECONDS: real := 0.25

  /** A moment at which the runner looks up: both clocks, and what other processes have committed
      since it looked the last time. */
  datatype Moment = Moment(monotonic: Time, wall: Time, commits: Db -> Db)

  /** What the runner is left with: no answer in time, a broken call, an error that the provider
      classified, or a completion; a blank one was truncated before any content arrived. */
  datatype Reply = Silent | Interrupted | Fault(kind: RunnerKind) | Completed(tokens: Option<nat>, blank: bool)

  /** How a request ends for its caller; `Unobserved` says that a heartbeat was not applied. */
  datatype Ending = Answered | Raised(kind: RunnerKind) | Unobserved | TaskGone

  function ResponseOf(reply: Reply): Response {
    match reply
    case Completed(Some(n), _) => Counted(n)
    case Completed(None, _) => Uncounted
    case Fault(Transient) => Response.Refused
    case _ => Lost
  }

  /** The check between operations: the task may be gone, cancelled or out of time. */
  function Checkpoint(db: Db, t: TaskId, end: Time, deadline: Time, m: Moment): Option<Ending> {
    if t !in db.tasks then Some(TaskGone)
    else if db.tasks[t].desired.Cancel? then Some(Raised(Stopped))
    else if m.monotonic >= end || m.wall >= deadline then Some(Raised(Permanent))
    else None
  }

  /** How a reply is taken; only a completion is followed by a second check. */
  function Concluded(reply: Reply, check: Option<Ending>): Ending {
    match reply
    case Silent => Raised(Uncertain)
    case Interrupted => Raised(Uncertain)
    case Fault(kind) => Raised(kind)
    case Completed(_, blank) => if check.Some? then check.value else if blank then Raised(Permanent) else Answered
  }

  /** The tables and the runner while it waits; it is no longer alive once an observation was not applied. */
  datatype Pulse = Pulse(db: Db, runner: Runner, lastBeat: Time, alive: bool)

  function Beat(p: Pulse, a: AttemptId, m: Moment): Pulse {
    var db := m.commits(p.db);
    if m.monotonic - p.lastBeat < HEARTBEAT_SECONDS then p.(db := db)
    else
      var r := p.runner.(sequence := p.runner.sequence + 1);
      var (db1, observed) := Observe(db, a, r.worker, r.sequence, AttemptState.Running, RunnerReport(r, None, None, true));
      if observed.Applied? then Pulse(db1, r, m.monotonic, true) else Pulse(db1, r, p.lastBeat, false)
  }

  function Beats(p: Pulse, a: AttemptId, moments: seq<Moment>): Pulse {
    if moments == [] then p
    else
      var n := |moments| - 1;
      var q := Beats(p, a, moments[..n]);
      if q.alive then Beat(q, a, moments[n]) else q
  }

  /** Waiting counts nothing and reports no more than once per heartbeat interval. */
  lemma {:induction false} BeatsSpaced(p: Pulse, a: AttemptId, moments: seq<Moment>)
    requires p.alive
    ensures var q := Beats(p, a, moments);
            && q.runner == p.runner.(sequence := q.runner.sequence)
            && p.runner.sequence <= q.runner.sequence
            && HEARTBEAT_SECONDS * (q.runner.sequence - p.runner.sequence - (if q.alive then 0 else 1)) as real <= q.lastBeat - p.lastBeat
  {
    if moments != [] {
      BeatsSpaced(p, a, moments[..|moments| - 1]);
    }
  }

  function RunnerReport(r: Runner, resultSha: Option<Label>, kind: Option<RunnerKind>, withTotal: bool): Report {
    Report(resultSha, kind, if withTotal then Some(if r.usageKnown then Some(r.tokens) else None) else None, Some(r.tokens))
  }
}
