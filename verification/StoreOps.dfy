/** The store's own transactions, each as a function from database to database. */
module StoreOps {
  import opened Types

  datatype Outcome = Receipted(task: TaskId, duplicate: bool) | Refused(error: Error)

  function NewTask(spec: Spec, now: Time): Task {
    Task(spec, Pending, Run, None, now, now + spec.budget.deadlineSeconds, now, None, None, None, None, 0, false)
  }

  function InsertTask(db: Db, spec: Spec): Db {
    Log(db.(tasks := db.tasks[db.nextId := NewTask(spec, db.clock)], nextId := db.nextId + 1),
        db.nextId, TaskAccepted)
  }

  function Record(db: Db, key: Label, c: Command): Db {
    db.(commands := db.commands[key := c])
  }

  // ----------------------------------------------------------- caller commands

  function Submit(db: Db, key: Label, raw: Raw): (Db, Outcome) {
    if key in db.commands then
      if db.commands[key].payload != SubmitPayload(raw) then (db, Refused(Conflict))
      else (db, Receipted(db.commands[key].task, true))
    else if !raw.sound || !ValidSpec(raw.spec) then (db, Refused(Invalid))
    else
      var t := db.nextId;
      (Record(InsertTask(db, raw.spec), key, Command(t, SubmitPayload(raw), db.clock, None)), Receipted(t, false))
  }

  function Cancel(db: Db, t: TaskId, key: Label): (Db, Outcome) {
    if key in db.commands then
      if db.commands[key].payload != CancelPayload(t) then (db, Refused(Conflict))
      else (db, Receipted(db.commands[key].task, true))
    else if t !in db.tasks then (db, Refused(NotFound))
    else
      var db1 := Record(db, key, Command(t, CancelPayload(t), db.clock, None));
      (if Terminal(db.tasks[t].status) then Log(db1, t, CancelIgnored) else CancelOpen(db1, t), Receipted(t, false))
  }

  /** Durable intent; a Pending task holds nothing and finishes in the same commit. */
  function CancelOpen(db: Db, t: TaskId): Db
    requires t in db.tasks
  {
    var row := db.tasks[t].(desired := Action.Cancel, reason := Some(UserCancelled));
    var asked := Log(db.(tasks := db.tasks[t := row]), t, CancelRequested);
    if row.status.Pending? then
      Log(asked.(tasks := db.tasks[t := row.(status := Status.Cancelled, finishedAt := Some(db.clock))]), t, TaskFinished)
    else asked
  }

  // ------------------------------------------------------------------- workers

  function RegisterWorker(db: Db, w: WorkerId, runtimes: set<Label>, slots: nat, allowWrite: bool): (Db, Option<Error>) {
    if w == 0 || runtimes == {} || !(1 <= slots <= 128) then (db, Some(Invalid))
    else (db.(workers := db.workers[w := Worker(runtimes, slots, allowWrite, db.clock)]), None)
  }

  function HeartbeatWorker(db: Db, w: WorkerId): Db {
    if w in db.workers then db.(workers := db.workers[w := db.workers[w].(lastSeen := db.clock)]) else db
  }

  // -------------------------------------------------------------- observations

  /** Kinds a runner reports; only the manager writes NotStarted. */
  type RunnerKind = k: Kind | k != NotStarted witness Transient

  /** Optional columns of one observation; `tokens` may be present and null. */
  datatype Report = Report(resultSha: Option<Label>, kind: Option<RunnerKind>,
                           tokens: Option<Option<nat>>, knownTokens: Option<nat>)

  datatype Observed = Applied | Dropped | Denied(error: Error)

  predicate Transition(x: AttemptState, y: AttemptState) {
    match x
    case Queued => y.Launching? || y.Cancelled? || y.Failed?
    case Launching => y.Running? || y.Cancelled? || y.Failed? || y.Unknown?
    case Running => y.Running? || Done(y) || y.Unknown?
    case Unknown => y.Unknown?
    case _ => false
  }

  function Max(x: nat, y: nat): nat {
    if x < y then y else x
  }

  /** Usage is cumulative: a newer report never erases known consumption. */
  function MergeUsage(row: Attempt, r: Report): (Option<nat>, nat) {
    if r.tokens.None? && r.knownTokens.None? then (row.tokens, row.knownTokens)
    else
      var reported := r.tokens.GetOr(None);
      var floor := Max(Max(row.knownTokens, r.knownTokens.GetOr(0)), reported.GetOr(0));
      var total := if r.tokens.Some? then reported else row.tokens;
      (if total.Some? && total.value < floor then None else total, floor)
  }

  function ObservedRow(a: AttemptId, row: Attempt, sequence: nat, state: AttemptState, r: Report, now: Time): Attempt {
    var (tokens, known) := MergeUsage(row, r);
    row.(state := state, sequence := sequence, heartbeat := now, tokens := tokens, knownTokens := known,
         resultPath := if r.resultSha.Some? then Some(a) else row.resultPath,
         resultSha := if r.resultSha.Some? then r.resultSha else row.resultSha,
         kind := if r.kind.Some? then Some(r.kind.value) else row.kind,
         startedAt := if state.Running? && row.startedAt.None? then Some(now) else row.startedAt,
         finishedAt := if Done(state) then Some(now) else row.finishedAt)
  }

  function UsageConflict(row: Attempt, r: Report): bool {
    var total := if r.tokens.Some? then r.tokens.value else row.tokens;
    && (r.tokens.Some? || r.knownTokens.Some?)
    && total.Some? && total.value < MergeUsage(row, r).1
  }

  /** A report of a superseded or finished execution, or one that arrives late. */
  predicate Outdated(row: Attempt, task: Task, a: AttemptId, worker: WorkerId, sequence: nat) {
    || row.worker != worker || sequence <= row.sequence || Done(row.state)
    || task.current != Some(a) || Terminal(task.status)
  }

  function Observation(db: Db, a: AttemptId, sequence: nat, state: AttemptState, r: Report): Db
    requires a in db.attempts
  {
    var row := db.attempts[a];
    db.(attempts := db.attempts[a := ObservedRow(a, row, sequence, state, r, db.clock)],
        events := db.events + (if UsageConflict(row, r) then [Event(row.task, UsageInconsistent)] else [])
                            + (if state != row.state then [Event(row.task, AttemptObserved)] else []))
  }

  function Observe(db: Db, a: AttemptId, worker: WorkerId, sequence: nat, state: AttemptState, r: Report): (Db, Observed) {
    if state.Queued? || sequence < 1 then (db, Denied(Invalid))
    else if a !in db.attempts || db.attempts[a].task !in db.tasks then (db, Denied(NotFound))
    else
      var row := db.attempts[a];
      if Outdated(row, db.tasks[row.task], a, worker, sequence) then (db, Dropped)
      else if !Transition(row.state, state) then (db, Denied(Conflict))
      else (Observation(db, a, sequence, state, r), Applied)
  }

  /** The operator states, with a note, that an Unknown execution has stopped. */
  function Resolve(db: Db, a: AttemptId, confirmed: bool): (Db, Option<Error>) {
    if !confirmed then (db, Some(Invalid))
    else if a !in db.attempts then (db, Some(NotFound))
    else
      var row := db.attempts[a];
      if !row.state.Unknown? then (db, Some(Conflict))
      else
        (Log(db.(attempts := db.attempts[a := row.(state := AttemptState.Failed, kind := Some(Permanent),
                                                   sequence := row.sequence + 1, heartbeat := db.clock,
                                                   finishedAt := Some(db.clock))]), row.task, AttemptResolved), None)
  }

  // ----------------------------------------------------------------- retention

  predicate Named(rows: seq<Child>, t: TaskId) {
    exists c :: c in rows && c.task == t
  }

  /** Old finished tasks that neither belong to a workflow nor plan one. */
  predicate Retirable(db: Db, cfg: Config, t: TaskId, now: Time) {
    && t in db.tasks && Terminal(db.tasks[t].status)
    && db.tasks[t].finishedAt.Some? && db.tasks[t].finishedAt.value <= now - cfg.retention
    && !Named(db.children, t) && t !in db.roots
  }

  function ResultPaths(attempts: map<AttemptId, Attempt>, t: TaskId): set<AttemptId> {
    set a | a in attempts && attempts[a].task == t && attempts[a].resultPath.Some? :: attempts[a].resultPath.value
  }

  function RetainMark(db: Db, cfg: Config, now: Time): Db {
    db.(intents := db.intents + map t | t in db.tasks && t !in db.intents && Retirable(db, cfg, t, now)
                                  :: Intent(Dependents, ResultPaths(db.attempts, t), now))
  }

  function WithoutTask(events: seq<Event>, t: TaskId): (r: seq<Event>)
    ensures forall e :: e in r <==> e in events && e.task != t
  {
    if events == [] then []
    else
      var n := |events| - 1;
      assert events == events[..n] + [events[n]];
      if events[n].task == t then WithoutTask(events[..n], t) else WithoutTask(events[..n], t) + [events[n]]
  }

  function WithoutChild(rows: seq<Child>, t: TaskId): (r: seq<Child>)
    ensures forall c :: c in r <==> c in rows && c.task != t
    ensures !Named(rows, t) ==> r == rows
  {
    if rows == [] then []
    else
      var n := |rows| - 1;
      assert rows == rows[..n] + [rows[n]];
      if rows[n].task == t then WithoutChild(rows[..n], t) else WithoutChild(rows[..n], t) + [rows[n]]
  }

  function TransfersWithout(transfers: map<(TaskId, TaskId), Transfer>, t: TaskId): map<(TaskId, TaskId), Transfer> {
    map p | p in transfers && p.0 != t && p.1 != t :: transfers[p]
  }

  function OutboxWithout(outbox: map<AttemptId, bool>, attempts: map<AttemptId, Attempt>, t: TaskId): map<AttemptId, bool> {
    map a | a in outbox && !(a in attempts && attempts[a].task == t) :: outbox[a]
  }

  function AttemptsWithout(attempts: map<AttemptId, Attempt>, t: TaskId): map<AttemptId, Attempt> {
    map a | a in attempts && attempts[a].task != t :: attempts[a]
  }

  /** Every row that references a task, in foreign-key order. */
  function DeleteDependents(db: Db, t: TaskId): (r: Db)
    ensures r.tasks == db.tasks && r.placements == db.placements && r.lastWorker == db.lastWorker
    ensures r.commands == db.commands && r.files == db.files && r.nextId == db.nextId && r.roots == db.roots
  {
    db.(transfers := TransfersWithout(db.transfers, t),
        children := WithoutChild(db.children, t),
        outbox := OutboxWithout(db.outbox, db.attempts, t),
        attempts := AttemptsWithout(db.attempts, t),
        events := WithoutTask(db.events, t))
  }

  /** One durable phase of one intent. */
  function RetainPhase(db: Db, t: TaskId): Db
    requires t in db.intents
  {
    var i := db.intents[t];
    match i.stage
    case Dependents => DeleteDependents(db, t).(intents := db.intents[t := i.(stage := TaskRow)])
    case TaskRow => DeleteDependents(db, t).(tasks := db.tasks - {t}, intents := db.intents[t := i.(stage := Artifact)])
    case Artifact => db.(files := db.files - i.paths, intents := db.intents - {t})
  }

  /** The intent that `ORDER BY created_at, task_id` returns first. */
  function OldestIntent(intents: map<TaskId, Intent>, n: nat): (r: Option<TaskId>)
    ensures r.None? <==> forall t :: t in intents ==> t >= n
    ensures r.Some? ==> r.value in intents && r.value < n
                        && forall t :: t in intents && t < n ==> intents[r.value].createdAt <= intents[t].createdAt
  {
    if n == 0 then None
    else
      var best := OldestIntent(intents, n - 1);
      if n - 1 !in intents then best
      else if best.Some? && intents[best.value].createdAt <= intents[n - 1].createdAt then best
      else Some(n - 1)
  }

  /** Idempotency tombstones outlive their task until the horizon passes. */
  function RetainPurge(db: Db, cfg: Config, now: Time): Db {
    db.(commands := map k | k in db.commands
                            && !(db.commands[k].acceptedAt + cfg.horizon < now && db.commands[k].task !in db.tasks)
                      :: db.commands[k])
  }

  function StageLeft(stage: Stage): nat {
    match stage
    case Dependents => 3
    case TaskRow => 2
    case Artifact => 1
  }

  /** Phases that the intents below `n` still have before them. */
  function PhasesLeft(intents: map<TaskId, Intent>, n: nat): nat {
    if n == 0 then 0
    else PhasesLeft(intents, n - 1) + if n - 1 in intents then StageLeft(intents[n - 1].stage) else 0
  }

  lemma {:induction false} PhasesOther(x: map<TaskId, Intent>, y: map<TaskId, Intent>, n: nat, t: TaskId)
    requires forall i :: i != t ==> (i in x <==> i in y)
    requires forall i :: i != t && i in x && i in y ==> x[i] == y[i]
    ensures PhasesLeft(y, n) == PhasesLeft(x, n)
            + (if t < n then (if t in y then StageLeft(y[t].stage) else 0) - (if t in x then StageLeft(x[t].stage) else 0) else 0)
  {
    if n > 0 {
      PhasesOther(x, y, n - 1, t);
    }
  }

  /** Every phase brings retention closer to its end. */
  lemma PhaseProgresses(db: Db, t: TaskId)
    requires t in db.intents && t < db.nextId
    ensures RetainPhase(db, t).nextId == db.nextId
    ensures PhasesLeft(RetainPhase(db, t).intents, db.nextId) < PhasesLeft(db.intents, db.nextId)
  {
    PhasesOther(db.intents, RetainPhase(db, t).intents, db.nextId, t);
  }

  /** Retention without interruption: phase after phase of the oldest intent. */
  function Drain(db: Db): (r: Db)
    ensures forall t :: t in r.intents ==> t >= db.nextId
    decreases PhasesLeft(db.intents, db.nextId)
  {
    var oldest := OldestIntent(db.intents, db.nextId);
    if oldest.None? then db
    else
      PhaseProgresses(db, oldest.value);
      Drain(RetainPhase(db, oldest.value))
  }
}
