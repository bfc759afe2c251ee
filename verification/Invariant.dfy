/** What holds in every reachable database. */
module Invariant {
  import opened Types
  import opened Sums
  import opened Graph
  import opened StoreOps
  import opened WorkflowOps

  predicate Open(s: Status) {
    s.Scheduled? || s.Running?
  }

  /** Kinds after which a task may be queued again. */
  predicate Retriable(k: Option<Kind>) {
    k == Some(Transient) || k == Some(Validation) || k == Some(NotStarted)
  }

  /** Until its attempts are deleted, a finished task keeps its whole record. */
  predicate Whole(intents: map<TaskId, Intent>, t: TaskId) {
    t in intents ==> intents[t].stage.Dependents?
  }

  // ------------------------------------------------------- tasks and attempts

  predicate TaskSound(t: Task) {
    && ValidSpec(t.spec)
    && (t.status.Pending? ==> t.current.None?)
    && (Open(t.status) ==> t.current.Some?)
    && (Terminal(t.status) ==> t.finishedAt.Some?)
    && (!Terminal(t.status) && t.spec.budget.maxTokens.Some? ==> t.tokensUsed < t.spec.budget.maxTokens.value)
    && (t.status.Succeeded? ==> t.desired.Run? && t.current.Some?)
  }

  /** A reservation lasts exactly until settlement, settlement needs terminal
      evidence, and the recorded total is the known usage or nothing. */
  predicate AttemptSound(a: AttemptId, row: Attempt, clock: Time) {
    && row.reserved == !row.settled
    && (row.settled ==> Done(row.state))
    && (row.state.Queued? ==> row.knownTokens == 0 && row.kind.None?)
    && (row.tokens.Some? ==> row.tokens.value == row.knownTokens)
    && (row.kind == Some(NotStarted) ==> row.state.Cancelled? && row.knownTokens == 0)
    && (row.resultPath.Some? ==> row.resultPath.value == a)
    && (Done(row.state) ==> row.finishedAt.Some? && row.finishedAt.value <= clock)
  }

  ghost predicate Rows(tasks: map<TaskId, Task>, attempts: map<AttemptId, Attempt>, nextId: nat, clock: Time) {
    && (forall t :: t in tasks ==> t < nextId && TaskSound(tasks[t]) && tasks[t].current.GetOr(0) < nextId)
    && (forall a :: a in attempts ==> a < nextId && AttemptSound(a, attempts[a], clock))
  }

  predicate HeldBy(task: Task, a: AttemptId, row: Attempt) {
    && (!row.settled ==> task.current == Some(a) && Open(task.status))
    && (task.current != Some(a) ==> Retriable(row.kind))
    && (task.current.Some? ==> a <= task.current.value)
  }

  predicate Holds(task: Task, t: TaskId, attempts: map<AttemptId, Attempt>) {
    Open(task.status) && task.current.Some? ==>
      task.current.value in attempts && attempts[task.current.value].task == t && !attempts[task.current.value].settled
  }

  /** An attempt is unsettled exactly when it is the current attempt of a Scheduled or Running task. */
  ghost predicate Linked(tasks: map<TaskId, Task>, attempts: map<AttemptId, Attempt>) {
    && (forall t :: t in tasks ==> Holds(tasks[t], t, attempts))
    && (forall a :: a in attempts ==> attempts[a].task in tasks && HeldBy(tasks[attempts[a].task], a, attempts[a]))
  }

  /** The attempt `a` carries the accepted outcome of `task`. */
  predicate Accepts(task: Task, t: TaskId, row: Attempt) {
    && row.task == t && row.state.Succeeded? && row.settled
    && row.finishedAt.Some? && row.finishedAt.value <= task.deadline
    && row.resultPath == task.resultPath && row.resultSha == task.resultSha
  }

  predicate Explained(task: Task, t: TaskId, attempts: map<AttemptId, Attempt>, intents: map<TaskId, Intent>) {
    task.status.Succeeded? && task.current.Some? ==>
      && (task.current.value in attempts ==> Accepts(task, t, attempts[task.current.value]))
      && (Whole(intents, t) ==> task.current.value in attempts)
  }

  ghost predicate Outcomes(tasks: map<TaskId, Task>, attempts: map<AttemptId, Attempt>, intents: map<TaskId, Intent>) {
    forall t :: t in tasks ==> Explained(tasks[t], t, attempts, intents)
  }

  /** How often a task may be executed: once unless it is replay-safe. */
  function Limit(s: Spec): int {
    if s.retry.replaySafe then s.retry.maxAttempts else 1
  }

  /** Executions of `t` other than the one under way. */
  function Earlier(attempts: map<AttemptId, Attempt>, t: TaskId, current: Option<AttemptId>): set<AttemptId> {
    set a | a in attempts && attempts[a].task == t && attempts[a].kind != Some(NotStarted) && current != Some(a)
  }

  /** Earlier executions leave room for one more. */
  predicate WithinLimit(task: Task, t: TaskId, attempts: map<AttemptId, Attempt>) {
    |Earlier(attempts, t, task.current)| < Limit(task.spec)
  }

  ghost predicate Numbered(attempts: map<AttemptId, Attempt>) {
    && (forall a :: a in attempts ==> 1 <= attempts[a].number <= |AttemptsOf(attempts, attempts[a].task)|)
    && (forall a, b :: a in attempts && b in attempts && a != b && attempts[a].task == attempts[b].task
                       ==> attempts[a].number != attempts[b].number)
  }

  ghost predicate Limited(tasks: map<TaskId, Task>, attempts: map<AttemptId, Attempt>) {
    forall t :: t in tasks ==> WithinLimit(tasks[t], t, attempts)
  }

  ghost function SettledUsage(attempts: map<AttemptId, Attempt>, t: TaskId): map<AttemptId, int> {
    map a | a in attempts && attempts[a].task == t && attempts[a].settled :: attempts[a].knownTokens
  }

  /** Each settled attempt is accounted exactly once. */
  ghost predicate Accounted(tasks: map<TaskId, Task>, attempts: map<AttemptId, Attempt>, intents: map<TaskId, Intent>) {
    forall t :: t in tasks && Whole(intents, t) ==> tasks[t].tokensUsed == Sum(SettledUsage(attempts, t))
  }

  // ----------------------------------------------------------------- workflows

  predicate WithinBudget(b: Budget, root: Budget) {
    && b.deadlineSeconds <= root.deadlineSeconds && b.attemptSeconds <= root.attemptSeconds
    && b.requestSeconds <= root.requestSeconds && b.maxOutputBytes <= root.maxOutputBytes
    && b.maxSteps <= root.maxSteps && b.outputTokens <= root.outputTokens
    && (root.maxTokens.Some? ==> b.maxTokens.Some? && b.maxTokens.value <= root.maxTokens.value)
  }

  /** A child's specification grants nothing its root does not have. */
  predicate WithinAuthority(s: Spec, root: Spec) {
    && s.runtime == root.runtime && s.workspace == root.workspace && s.model == root.model
    && (root.sandbox.ReadOnly? ==> s.sandbox.ReadOnly?)
    && (s.sandbox.WorkspaceWrite? ==> WRITE_FILE in root.tools)
    && s.tools <= root.tools
    && WithinBudget(s.budget, root.budget)
    && s.retry.maxAttempts <= root.retry.maxAttempts
    && (s.retry.replaySafe ==> root.retry.replaySafe)
  }

  predicate ChildSound(task: Task, root: Root, c: Child) {
    && 1 <= c.revision <= root.planRevision
    && WithinAuthority(task.spec, root.authority)
    && (root.maxTokens.Some? ==> task.spec.budget.maxTokens.Some?)
    && (c.carried ==> task.status.Succeeded?)
    && (!Terminal(task.status) && task.desired.Run? ==> c.revision == root.planRevision)
  }

  ghost predicate RootsSound(tasks: map<TaskId, Task>, roots: map<TaskId, Root>) {
    forall r :: r in roots ==> r in tasks && roots[r].planRevision <= |roots[r].plans| && roots[r].maxAttempts >= 1
  }

  ghost predicate ChildrenSound(tasks: map<TaskId, Task>, roots: map<TaskId, Root>, rows: seq<Child>) {
    forall c :: c in rows ==> c.root in roots && c.task in tasks && c.task !in roots && ChildSound(tasks[c.task], roots[c.root], c)
  }

  predicate Akin(c: Child, d: Child) {
    && (c.task == d.task ==> c.root == d.root && c.key == d.key && (!c.carried && !d.carried ==> c == d))
    && (c.root == d.root && c.revision == d.revision && (c.key == d.key || c.index == d.index) ==> c == d)
  }

  /** Child rows are unique by key and by index in a revision, and a task has one creating row. */
  ghost predicate Distinct(rows: seq<Child>) {
    && (forall c, d :: c in rows && d in rows ==> Akin(c, d))
    && (forall i, j :: 0 <= i < j < |rows| ==> rows[i] != rows[j])
  }

  ghost function ChildUsage(tasks: map<TaskId, Task>, rows: seq<Child>, r: TaskId): map<TaskId, int> {
    map t | t in tasks && IsChild(rows, r, t) :: tasks[t].tokensUsed
  }

  ghost function ChildAttempts(attempts: map<AttemptId, Attempt>, rows: seq<Child>, r: TaskId): set<AttemptId> {
    set a | a in attempts && IsChild(rows, r, attempts[a].task)
  }

  /** A root's counters are the totals over its distinct child tasks. */
  ghost predicate RootsAccounted(tasks: map<TaskId, Task>, attempts: map<AttemptId, Attempt>, roots: map<TaskId, Root>, rows: seq<Child>) {
    forall r :: r in roots ==>
      && roots[r].tokensUsed == Sum(ChildUsage(tasks, rows, r))
      && roots[r].attemptsUsed == |ChildAttempts(attempts, rows, r)| <= roots[r].maxAttempts
  }

  /** What a child binds of its workflow's tokens: its whole ceiling while it is open,
      afterwards what it used of it. */
  function Commitment(task: Task): int {
    var ceiling := task.spec.budget.maxTokens.GetOr(0);
    if Terminal(task.status) && task.tokensUsed < ceiling then task.tokensUsed else ceiling
  }

  ghost function Commitments(tasks: map<TaskId, Task>, rows: seq<Child>, r: TaskId): map<TaskId, int> {
    map t | t in tasks && IsChild(rows, r, t) :: Commitment(tasks[t])
  }

  /** A bounded workflow never commits more tokens than it has. */
  ghost predicate Allocated(tasks: map<TaskId, Task>, roots: map<TaskId, Root>, rows: seq<Child>) {
    forall r :: r in roots && roots[r].maxTokens.Some? ==> Sum(Commitments(tasks, rows, r)) <= roots[r].maxTokens.value
  }

  predicate InRevision(rows: seq<Child>, root: TaskId, revision: nat, key: Label) {
    exists d :: d in rows && d.root == root && d.revision == revision && d.key == key
  }

  /** The row belongs to an accepted acyclic plan, all of whose children have rows. */
  ghost predicate Planned(root: Root, rows: seq<Child>, c: Child) {
    && 1 <= c.revision <= |root.plans|
    && var plan := root.plans[c.revision - 1];
       && plan.accepted && plan.doc.Plan?
       && var g := PlanGraph(plan.doc.children);
          && Acyclic(g) && Closed(g) && c.key in g && g[c.key] == (set d | d in c.dependencies)
          && forall k :: k in g ==> InRevision(rows, c.root, c.revision, k)
  }

  ghost predicate Plans(roots: map<TaskId, Root>, rows: seq<Child>) {
    forall c :: c in rows ==> c.root in roots && Planned(roots[c.root], rows, c)
  }

  predicate DependsOn(c: Child, d: Child) {
    d.root == c.root && d.revision == c.revision && d.key in c.dependencies
  }

  predicate Satisfied(tasks: map<TaskId, Task>, transfers: map<(TaskId, TaskId), Transfer>, c: Child, d: Child) {
    && d.task in tasks && tasks[d.task].status.Succeeded?
    && (d.task, c.task) in transfers && transfers[(d.task, c.task)].Delivered?
  }

  predicate Attempted(attempts: map<AttemptId, Attempt>, t: TaskId) {
    exists a :: a in attempts && attempts[a].task == t
  }

  /** A child that was ever placed has all dependencies of its own revision, delivered. */
  ghost predicate Gated(tasks: map<TaskId, Task>, attempts: map<AttemptId, Attempt>, rows: seq<Child>,
                        transfers: map<(TaskId, TaskId), Transfer>) {
    forall c, d :: c in rows && d in rows && !c.carried && DependsOn(c, d) && Attempted(attempts, c.task)
                   ==> Satisfied(tasks, transfers, c, d)
  }

  /** A transfer that failed has ended its consumer. */
  ghost predicate Sent(tasks: map<TaskId, Task>, transfers: map<(TaskId, TaskId), Transfer>) {
    forall p :: p in transfers && p.1 in tasks && !Terminal(tasks[p.1].status) ==> transfers[p].Delivered?
  }

  // ---------------------------------------------------------------- references

  /** The result artifact of an attempt, if it has one, is among `paths`. */
  predicate Covers(paths: set<AttemptId>, row: Attempt) {
    row.resultPath.Some? ==> row.resultPath.value in paths
  }

  predicate IntentSound(db: Db, t: TaskId, i: Intent) {
    && t < db.nextId
    && (forall p :: p in i.paths ==> p < db.nextId && (p in db.attempts ==> db.attempts[p].task == t))
    && (forall a :: a in db.attempts && db.attempts[a].task == t ==> Covers(i.paths, db.attempts[a]))
    && (i.stage.Artifact? ==> t !in db.tasks)
    && (!i.stage.Artifact? ==> t in db.tasks && Terminal(db.tasks[t].status) && !Named(db.children, t) && t !in db.roots)
    && (!i.stage.Dependents? ==> !Attempted(db.attempts, t))
  }

  /** Every reference between tables points at an existing row. */
  ghost predicate Referenced(db: Db) {
    && (forall a :: a in db.attempts ==> db.attempts[a].worker in db.workers)
    && (forall a :: a in db.outbox ==> a in db.attempts)
    && (forall p :: p in db.transfers ==> p.0 in db.tasks && p.1 in db.tasks)
    && (forall e :: e in db.events ==> e.task in db.tasks)
    && (forall k :: k in db.commands ==> db.commands[k].task < db.nextId)
    && (forall t :: t in db.intents ==> IntentSound(db, t, db.intents[t]))
  }

  ghost predicate Inv(cfg: Config, db: Db) {
    && Rows(db.tasks, db.attempts, db.nextId, db.clock)
    && Linked(db.tasks, db.attempts)
    && Outcomes(db.tasks, db.attempts, db.intents)
    && Numbered(db.attempts)
    && Limited(db.tasks, db.attempts)
    && Accounted(db.tasks, db.attempts, db.intents)
    && |Reserved(db.attempts)| <= cfg.maxActive
    && RootsSound(db.tasks, db.roots)
    && ChildrenSound(db.tasks, db.roots, db.children)
    && Distinct(db.children)
    && RootsAccounted(db.tasks, db.attempts, db.roots, db.children)
    && Allocated(db.tasks, db.roots, db.children)
    && Plans(db.roots, db.children)
    && Gated(db.tasks, db.attempts, db.children, db.transfers)
    && Sent(db.tasks, db.transfers)
    && Referenced(db)
  }

  // -------------------------------------------------------- progress over steps

  /** How a task row may change: its contract is fixed, cancel intent and every
      terminal outcome are final. */
  predicate TaskAdvances(x: Task, y: Task) {
    && y.spec == x.spec && y.deadline == x.deadline && y.submittedAt == x.submittedAt
    && (x.desired.Cancel? ==> y.desired.Cancel?)
    && (Terminal(x.status) ==> y == x)
    && x.tokensUsed <= y.tokensUsed
  }

  /** How an attempt row may change: settled rows are frozen, a terminal state and its
      evidence are final, Unknown ends only as a permanent failure. */
  predicate AttemptAdvances(x: Attempt, y: Attempt) {
    && y.task == x.task && y.number == x.number && y.worker == x.worker
    && x.sequence <= y.sequence && x.knownTokens <= y.knownTokens
    && (x.settled ==> y == x)
    && (Done(x.state) ==> y.state == x.state && y.finishedAt == x.finishedAt && y.resultPath == x.resultPath
                          && y.resultSha == x.resultSha && y.tokens == x.tokens && y.knownTokens == x.knownTokens
                          && (y.kind == x.kind || (x.state.Succeeded? && y.kind == Some(Validation))))
    && (x.state.Unknown? ==> y.state.Unknown? || (y.state.Failed? && y.kind == Some(Permanent)))
    && (!x.state.Queued? ==> !y.state.Queued? && (y.kind == Some(NotStarted) ==> x.kind == Some(NotStarted)))
    && (x.kind == Some(NotStarted) ==> y.kind == Some(NotStarted))
  }

  predicate RootAdvances(x: Root, y: Root) {
    && y.authority == x.authority && y.maxTokens == x.maxTokens && y.maxAttempts == x.maxAttempts
    && x.planRevision <= y.planRevision && x.plans <= y.plans
    && x.tokensUsed <= y.tokensUsed && x.attemptsUsed <= y.attemptsUsed
    && (x.maxTokens.Some? && x.tokensUsed >= x.maxTokens.value ==> y.attemptsUsed == x.attemptsUsed)
  }

  predicate StillWanted(tasks: map<TaskId, Task>, t: TaskId) {
    t in tasks ==> tasks[t].desired.Run? && !Terminal(tasks[t].status)
  }

  /** Attempt rows disappear together, and only after their task has finished. */
  predicate Cleaned(db: Db, t: TaskId) {
    !Attempted(db.attempts, t) && (t in db.tasks ==> Terminal(db.tasks[t].status))
  }

  /** How a whole database may change over any number of transactions. */
  ghost predicate Advances(x: Db, y: Db) {
    && x.nextId <= y.nextId && x.clock <= y.clock
    && (forall t :: t in y.tasks ==> if t in x.tasks then TaskAdvances(x.tasks[t], y.tasks[t]) else t >= x.nextId)
    && (forall a :: a in y.attempts ==>
          if a in x.attempts then AttemptAdvances(x.attempts[a], y.attempts[a])
          else a >= x.nextId && StillWanted(x.tasks, y.attempts[a].task))
    && (forall a :: a in x.attempts && a !in y.attempts ==> Cleaned(y, x.attempts[a].task) && !Named(x.children, x.attempts[a].task))
    && (forall c :: c in x.children ==> c in y.children)
    && (forall t :: t in x.tasks && t !in y.tasks ==> t !in x.roots && !Named(x.children, t))
    && (forall r :: r in x.roots ==> r in y.roots && RootAdvances(x.roots[r], y.roots[r]))
  }
}
