/** The rows of the orchestrator's database and the documents its commands carry.

    Texts that the program only compares (labels, model names, workspace paths,
    idempotency keys, JSON content) are natural numbers.  Row identifiers come
    from one supply that never repeats, as the source's random UUIDs do. */
module Types {

  datatype Option<+T> = None | Some(value: T)
  {
    function GetOr(default: T): T {
      match this
      case Some(v) => v
      case None => default
    }
  }

  type TaskId = nat
  type AttemptId = nat
  /** 0 is the empty `last_worker` of a fresh store; registered workers are positive. */
  type WorkerId = nat
  type Label = nat
  type Time = real

  // ------------------------------------------------------------ specifications

  datatype Sandbox = ReadOnly | WorkspaceWrite

  /** Error kinds that the runner, the manager and the operator write. */
  datatype Kind = Transient | Validation | Permanent | Stopped | Uncertain | NotStarted

  datatype Budget = Budget(deadlineSeconds: real, attemptSeconds: real, requestSeconds: real,
                           maxOutputBytes: int, maxSteps: int, outputTokens: int, maxTokens: Option<int>)

  datatype Retry = Retry(maxAttempts: int, replaySafe: bool, backoffSeconds: real, on: set<Kind>)

  datatype Spec = Spec(runtime: Label, workspace: Label, model: Option<Label>, sandbox: Sandbox,
                       tools: set<Label>, budget: Budget, retry: Retry, content: Label)

  const LIST_FILES: Label := 0
  const READ_FILE: Label := 1
  const WRITE_FILE: Label := 2

  /** The numeric ranges that task validation enforces. */
  predicate ValidSpec(s: Spec) {
    && 0.1 <= s.budget.deadlineSeconds <= 86400.0
    && 0.1 <= s.budget.attemptSeconds <= 86400.0
    && 0.1 <= s.budget.requestSeconds <= 300.0
    && 64 <= s.budget.maxOutputBytes <= 10485760
    && 1 <= s.budget.maxSteps <= 100
    && 1 <= s.budget.outputTokens <= 65536
    && (s.budget.maxTokens.Some? ==> 1 <= s.budget.maxTokens.value <= 1000000000)
    && 1 <= s.retry.maxAttempts <= 10
    && 0.01 <= s.retry.backoffSeconds <= 3600.0
    && s.retry.on <= {Transient, Validation}
  }

  /** What a caller submits.  `sound` says that the parts this model does not
      represent (schemas, paths, text lengths) pass validation. */
  datatype Raw = Raw(spec: Spec, workflow: Option<WorkflowConfig>, sound: bool)

  datatype WorkflowConfig = WorkflowConfig(enabled: bool, maxChildren: int, maxTokens: Option<int>, maxAttempts: int,
                                           plannerRuntime: Label, plannerModel: Option<Label>,
                                           plannerBudget: Budget, plannerContent: Label)

  predicate ValidWorkflow(w: WorkflowConfig) {
    && 1 <= w.maxChildren <= 1000
    && (w.maxTokens.Some? ==> 1 <= w.maxTokens.value <= 1000000000)
    && 1 <= w.maxAttempts <= 1000
  }

  /** The read-only planner task of a workflow document. */
  function PlannerSpec(raw: Raw, w: WorkflowConfig): Spec {
    raw.spec.(runtime := w.plannerRuntime, model := w.plannerModel, sandbox := ReadOnly,
              tools := raw.spec.tools * {LIST_FILES, READ_FILE},
              budget := w.plannerBudget, content := w.plannerContent)
  }

  // --------------------------------------------------------------------- plans

  datatype BudgetDoc = BudgetDoc(deadlineSeconds: Option<real>, attemptSeconds: Option<real>, requestSeconds: Option<real>,
                                 maxOutputBytes: Option<int>, maxSteps: Option<int>, outputTokens: Option<int>,
                                 maxTokens: Option<Option<int>>)

  datatype RetryDoc = RetryDoc(maxAttempts: Option<int>, replaySafe: Option<bool>,
                               backoffSeconds: Option<real>, on: Option<set<Kind>>)

  /** The task fields one plan child sets.  `permitted` says that it sets no field
      outside the child allow-list, `sound` that unmodelled content validates. */
  datatype ChildDoc = ChildDoc(runtime: Option<Label>, workspace: Option<Label>, model: Option<Option<Label>>,
                               sandbox: Option<Sandbox>, tools: Option<set<Label>>,
                               budget: BudgetDoc, retry: RetryDoc, content: Option<Label>,
                               permitted: bool, sound: bool)

  datatype Delivery = Delivery(result: bool, files: seq<Label>)

  datatype PlanChild = PlanChild(id: Label, order: Option<nat>, dependencies: seq<Label>,
                                 task: ChildDoc, delivery: Delivery)

  /** A plan document; `Malformed` fails the size bound or the JSON schema. */
  datatype PlanDoc = Malformed(content: Label) | Plan(children: seq<PlanChild>)

  // ---------------------------------------------------------------------- rows

  datatype Status = Pending | Scheduled | Running | Succeeded | Failed | Cancelled
  datatype Action = Run | Cancel
  datatype AttemptState = Queued | Launching | Running | Succeeded | Failed | Cancelled | Unknown

  datatype Reason = DeadlineExceeded | UserCancelled | ObsoleteByReplan | OutputValidated | WorkerLost
                  | AttemptError(kind: Option<Kind>) | DependencyFailed | TokensExhausted | AttemptsExhausted
                  | WorkflowFailed | PlanInvalid

  datatype Task = Task(spec: Spec, status: Status, desired: Action, current: Option<AttemptId>,
                       submittedAt: Time, deadline: Time, nextRunAt: Time, finishedAt: Option<Time>,
                       reason: Option<Reason>, resultPath: Option<AttemptId>, resultSha: Option<Label>,
                       tokensUsed: nat, usageUnknown: bool)

  /** A result path is `artifacts/<attempt id>.json`, written here as the attempt id. */
  datatype Attempt = Attempt(task: TaskId, number: nat, worker: WorkerId, state: AttemptState,
                             reserved: bool, settled: bool, sequence: nat,
                             startedAt: Option<Time>, finishedAt: Option<Time>, heartbeat: Time,
                             resultPath: Option<AttemptId>, resultSha: Option<Label>,
                             kind: Option<Kind>, tokens: Option<nat>, knownTokens: nat)

  datatype Worker = Worker(runtimes: set<Label>, slots: nat, allowWrite: bool, lastSeen: Time)

  datatype RootState = Planning | Executing | RootFailed

  datatype PlanRow = PlanRow(accepted: bool, doc: PlanDoc)

  /** A workflow root, keyed by its planner task; `plans[i]` is revision i + 1. */
  datatype Root = Root(state: RootState, iteration: nat, planRevision: nat, plans: seq<PlanRow>,
                       authority: Spec, maxChildren: int, maxTokens: Option<int>, maxAttempts: int,
                       tokensUsed: nat, attemptsUsed: nat, reason: Option<Reason>)

  datatype Child = Child(root: TaskId, revision: nat, index: nat, key: Label, task: TaskId,
                         dependencies: seq<Label>, delivery: Delivery, carried: bool)

  datatype Transfer = Delivered | Undelivered

  datatype Payload = SubmitPayload(raw: Raw) | CancelPayload(task: TaskId)
                   | PlanPayload(replan: bool, root: TaskId, doc: PlanDoc)

  datatype PlanState = Accepted | Rejected | Ignored

  datatype Receipt = Receipt(revision: nat, state: PlanState, children: seq<TaskId>)

  datatype Command = Command(task: TaskId, payload: Payload, acceptedAt: Time, receipt: Option<Receipt>)

  datatype Stage = Dependents | TaskRow | Artifact

  datatype Intent = Intent(stage: Stage, paths: set<AttemptId>, createdAt: Time)

  datatype EventKind = TaskAccepted | CancelRequested | TaskFinished | CancelIgnored | TaskDeadline
                     | AttemptWorkerLost | AttemptRunnerLost | TaskRequeued | ResultRejected | RetryScheduled
                     | TaskScheduled | AttemptClaimed | AttemptRejected | AttemptObserved | UsageInconsistent
                     | AttemptResolved | WorkflowCreated | PlanIgnored | PlanRejected | PlanAccepted
                     | ChildCancelled | ChildCancelRequested | ChildCreated
                     | DependenciesDelivered | DependencyRefused

  datatype Event = Event(task: TaskId, kind: EventKind)

  /** History of placements: the worker chosen and the workers that could have been. */
  datatype Placement = Placement(worker: WorkerId, feasible: seq<WorkerId>)

  /** Settings that stay fixed while the store runs. */
  datatype Config = Config(maxActive: nat, workerTtl: Time, retention: Time, horizon: Time)

  datatype Db = Db(tasks: map<TaskId, Task>, attempts: map<AttemptId, Attempt>, outbox: map<AttemptId, bool>,
                   workers: map<WorkerId, Worker>, roots: map<TaskId, Root>, children: seq<Child>,
                   transfers: map<(TaskId, TaskId), Transfer>, commands: map<Label, Command>,
                   intents: map<TaskId, Intent>, events: seq<Event>, files: set<AttemptId>,
                   placements: seq<Placement>, lastWorker: WorkerId, nextId: nat, clock: Time)

  const EMPTY: Db := Db(map[], map[], map[], map[], map[], [], map[], map[], map[], [], {}, [], 0, 0, 0.0)

  datatype Error = Conflict | NotFound | Invalid

  predicate Terminal(s: Status) {
    s.Succeeded? || s.Failed? || s.Cancelled?
  }

  predicate Done(s: AttemptState) {
    s.Succeeded? || s.Failed? || s.Cancelled?
  }

  function Log(db: Db, t: TaskId, kind: EventKind): Db {
    db.(events := db.events + [Event(t, kind)])
  }

  // ------------------------------------------------------------------- queries

  /** `SELECT id ... WHERE p(id)` in row order: the ids below `n` that satisfy `p`. */
  function Select(n: nat, p: nat -> bool): (ids: seq<nat>)
    ensures forall x: nat :: x in ids <==> x < n && p(x)
    ensures forall i, j :: 0 <= i < j < |ids| ==> ids[i] < ids[j]
  {
    if n == 0 then []
    else
      var rest := Select(n - 1, p);
      assert forall i :: 0 <= i < |rest| ==> rest[i] in rest;
      if p(n - 1) then rest + [n - 1] else rest
  }

  function AttemptsOf(attempts: map<AttemptId, Attempt>, t: TaskId): set<AttemptId> {
    set a | a in attempts && attempts[a].task == t
  }

  /** Attempts that reached a runner: a confirmed non-start is not an execution. */
  function Executed(attempts: map<AttemptId, Attempt>, t: TaskId): set<AttemptId> {
    set a | a in attempts && attempts[a].task == t && attempts[a].kind != Some(NotStarted)
  }

  function Executions(attempts: map<AttemptId, Attempt>, t: TaskId): nat {
    |Executed(attempts, t)|
  }

  function Reserved(attempts: map<AttemptId, Attempt>): set<AttemptId> {
    set a | a in attempts && attempts[a].reserved
  }

  function ReservedBy(attempts: map<AttemptId, Attempt>, w: WorkerId): set<AttemptId> {
    set a | a in attempts && attempts[a].worker == w && attempts[a].reserved
  }

  /** The row of the latest revision that names task `t`. */
  function LatestChild(rows: seq<Child>, t: TaskId): (r: Option<Child>)
    ensures r.None? <==> forall c :: c in rows ==> c.task != t
    ensures r.Some? ==> r.value in rows && r.value.task == t
                        && forall c :: c in rows && c.task == t ==> c.revision <= r.value.revision
  {
    if rows == [] then None
    else
      var n := |rows| - 1;
      var best := LatestChild(rows[..n], t);
      assert rows == rows[..n] + [rows[n]];
      if rows[n].task != t then best
      else if best.Some? && best.value.revision >= rows[n].revision then best
      else Some(rows[n])
  }

  /** The row for `key` with the highest revision not above `upto`. */
  function SourceChild(rows: seq<Child>, root: TaskId, key: Label, upto: nat): (r: Option<Child>)
    ensures r.None? <==> forall c :: c in rows && c.root == root && c.key == key ==> c.revision > upto
    ensures r.Some? ==> r.value in rows && r.value.root == root && r.value.key == key && r.value.revision <= upto
                        && forall c :: c in rows && c.root == root && c.key == key && c.revision <= upto
                             ==> c.revision <= r.value.revision
  {
    if rows == [] then None
    else
      var n := |rows| - 1;
      var best := SourceChild(rows[..n], root, key, upto);
      assert rows == rows[..n] + [rows[n]];
      if rows[n].root != root || rows[n].key != key || rows[n].revision > upto then best
      else if best.Some? && best.value.revision >= rows[n].revision then best
      else Some(rows[n])
  }
}
